// The first two passes of the assembler: split the packed opcodes into methods, read the operand
// bands the opcodes ask for, and lay out every instruction.
module PackedReader {
  import opened Common
  import opened LayoutModel
  import opened BandSupply
  import opened PackedCode
  import opened PackedFacts

  //
  // Opcodes
  //

  /** The position of the first terminator from p on, or the end. */
  function Terminator(input: seq<byte>, p: nat): (r: nat)
    requires p <= |input|
    ensures p <= r <= |input| && (r < |input| ==> input[r] == 0xff)
    ensures forall k :: p <= k < r ==> input[k] != 0xff
    decreases |input| - p
  {
    if p == |input| || input[p] == 0xff then p else Terminator(input, p + 1)
  }

  predicate AllSupported(codes: seq<byte>) {
    forall k :: 0 <= k < |codes| ==> Supported(codes[k])
  }

  /** From p on stand `count` methods of supported opcodes, none empty, when `packed` opcodes came before. */
  predicate Readable(input: seq<byte>, p: nat, count: nat, packed: nat)
    requires p <= |input|
    decreases count
  {
    count == 0 ||
    var t := Terminator(input, p);
    && packed <= 0xffff_ffff
    && p < t < |input| && t - p <= 0xffff_ffff
    && AllSupported(input[p..t])
    && Readable(input, t + 1, count - 1, packed + (t - p))
  }

  /** The input the methods were read from: each method's opcodes and a terminator. */
  function Packed(codes: seq<byte>, methods: seq<Method>): seq<byte>
    requires forall m :: m in methods ==> m.first + m.length <= |codes|
  {
    if |methods| == 0 then []
    else
      var m := methods[|methods| - 1];
      assert m in methods;
      Packed(codes, methods[..|methods| - 1]) + codes[m.first..m.first + m.length] + [0xff]
  }

  /** The opcodes of one method, up to its terminator. */
  method ScanMethod(input: seq<byte>, p: nat, packed: seq<byte>)
    returns (status: Status, p': nat, packed': seq<byte>)
    requires p <= |input|
    ensures p <= p' <= |input|
    ensures status == Success <==> Terminator(input, p) < |input| && AllSupported(input[p..Terminator(input, p)])
    ensures status == Success ==> p' == Terminator(input, p) + 1 && packed' == packed + input[p..p' - 1]
    ensures status == NotSupported ==> !AllSupported(input[p..Terminator(input, p)])
    ensures status in {Success, NotSupported, InvalidNetworkResponse}
  {
    p', packed' := p, packed;
    while true
      invariant p <= p' <= |input| && Terminator(input, p) == Terminator(input, p')
      invariant packed' == packed + input[p..p'] && AllSupported(input[p..p'])
      decreases |input| - p'
    {
      if p' >= |input| {
        return InvalidNetworkResponse, p', packed';
      }
      var opcode := input[p'];
      p' := p' + 1;
      if opcode == 0xff {
        return Success, p', packed';
      }
      if !Supported(opcode) {
        assert input[p..Terminator(input, p)][p' - 1 - p] == opcode;
        return NotSupported, p', packed';
      }
      packed' := packed' + [opcode];
      assert input[p..p'] == input[p..p' - 1] + [opcode];
    }
  }

  lemma PackedMore(codes: seq<byte>, more: seq<byte>, methods: seq<Method>)
    requires forall m :: m in methods ==> m.first + m.length <= |codes|
    ensures Packed(codes + more, methods) == Packed(codes, methods)
  {
    if |methods| > 0 {
      var m := methods[|methods| - 1];
      PackedMore(codes, more, methods[..|methods| - 1]);
      assert m in methods;
      assert (codes + more)[m.first..m.first + m.length] == codes[m.first..m.first + m.length];
    }
  }

  predicate Consecutive(methods: seq<Method>, total: nat) {
    && (forall c :: 0 <= c < |methods| ==> methods[c].length > 0 && methods[c].first + methods[c].length <= total)
    && (forall c :: 0 <= c < |methods| ==> methods[c].first == if c == 0 then 0 else methods[c - 1].first + methods[c - 1].length)
    && total == if |methods| == 0 then 0 else methods[|methods| - 1].first + methods[|methods| - 1].length
  }

  /** All methods: their opcodes in one run, and where each begins. */
  method ScanMethods(input: seq<byte>, p: nat, count: nat)
    returns (status: Status, p': nat, codes: seq<byte>, methods: seq<Method>)
    requires p <= |input|
    ensures p <= p' <= |input|
    ensures status == Success <==> Readable(input, p, count, 0)
    ensures status == Success ==>
              && |methods| == count && Consecutive(methods, |codes|) && AllSupported(codes)
              && input[p..p'] == Packed(codes, methods)
  {
    hide Supported; hide Packed; hide AllSupported;
    p', codes, methods, status := p, [], [], Success;
    NothingScanned(input, p);
    while |methods| < count
      invariant p <= p' <= |input| && |methods| <= count && status == Success
      invariant Consecutive(methods, |codes|) && AllSupported(codes)
      invariant input[p..p'] == Packed(codes, methods)
      invariant Readable(input, p', count - |methods|, |codes|) <==> Readable(input, p, count, 0)
    {
      if |codes| > 0xffff_ffff {
        return IntegerOverflow, p', codes, methods;
      }
      ghost var t := Terminator(input, p');
      ghost var before, before', at := codes, methods, p';
      var first := |codes|;
      status, p', codes := ScanMethod(input, p', codes);
      if status != Success {
        return;
      }
      SupportedBoth(before, input[at..t]);
      var length := |codes| - first;
      if length > 0xffff_ffff || length == 0 {
        return InvalidNetworkResponse, p', codes, methods;
      }
      methods := methods + [Method(first, length)];
      ScanJoins(input, p, at, t, before, before');
    }
  }

  lemma NothingScanned(input: seq<byte>, p: nat)
    requires p <= |input|
    ensures AllSupported([]) && input[p..p] == Packed([], [])
  {
  }

  lemma SupportedBoth(a: seq<byte>, b: seq<byte>)
    requires AllSupported(a) && AllSupported(b)
    ensures AllSupported(a + b)
  {
    hide Supported;
  }

  lemma ScanJoins(input: seq<byte>, p: nat, at: nat, t: nat, codes: seq<byte>, methods: seq<Method>)
    requires p <= at < t < |input| && input[t] == 0xff && Consecutive(methods, |codes|)
    requires input[p..at] == Packed(codes, methods)
    ensures var more := codes + input[at..t];
      var all := methods + [Method(|codes|, t - at)];
      Consecutive(all, |more|) && input[p..t + 1] == Packed(more, all)
  {
    hide Packed;
    var more := codes + input[at..t];
    var m := Method(|codes|, t - at);
    var all := methods + [m];
    assert Consecutive(all, |more|);
    PackedMore(codes, input[at..t], methods);
    PackedLast(more, methods, m);
    assert more[|codes|..|codes| + (t - at)] == input[at..t];
    assert input[p..t + 1] == (input[p..at] + input[at..t]) + [0xff];
  }

  lemma PackedLast(codes: seq<byte>, methods: seq<Method>, m: Method)
    requires forall x :: x in methods ==> x.first + x.length <= |codes|
    requires m.first + m.length <= |codes|
    ensures Packed(codes, methods + [m]) == Packed(codes, methods) + codes[m.first..m.first + m.length] + [0xff]
  {
    assert (methods + [m])[..|methods + [m]| - 1] == methods;
  }

  //
  // Operands
  //

  /** The bands in the order they are read, their codings, and whether a negative value is refused. */
  function BandAt(n: nat): (Operand, CodingKind, bool) {
    match n
    case 0 => (Bytes, Byte1, true)
    case 1 => (Shorts, Delta5, false)
    case 2 => (Integers, Delta5, true)
    case 3 => (Floats, Delta5, true)
    case 4 => (Longs, Delta5, true)
    case 5 => (Doubles, Delta5, true)
    case 6 => (Strings, Delta5, true)
    case 7 => (Loadables, Delta5, true)
    case 8 => (Classes, Unsigned5, true)
    case 9 => (Fields, Delta5, true)
    case 10 => (Methods, Unsigned5, true)
    case 11 => (InterfaceMethods, Delta5, true)
    case 12 => (Dynamics, Delta5, true)
    case 13 => (Locals, Unsigned5, true)
    case 14 => (Labels, Branch5, false)
    case 15 => (ThisMethods, Unsigned5, true)
    case 16 => (SuperMethods, Unsigned5, true)
    case _ => (Inits, Unsigned5, true)
  }

  const BAND_COUNT: nat := 18

  function PlaceOf(k: Operand): nat {
    match k
    case Bytes => 0
    case Shorts => 1
    case Integers => 2
    case Floats => 3
    case Longs => 4
    case Doubles => 5
    case Strings => 6
    case Loadables => 7
    case Classes => 8
    case Fields => 9
    case Methods => 10
    case InterfaceMethods => 11
    case Dynamics => 12
    case Locals => 13
    case Labels => 14
    case ThisMethods => 15
    case SuperMethods => 16
    case Inits => 17
  }

  /** Every band is read exactly once, and only labels and shorts may be negative. */
  lemma OrderComplete(n: nat, k: Operand)
    ensures n < BAND_COUNT ==> PlaceOf(BandAt(n).0) == n
    ensures PlaceOf(k) < BAND_COUNT && BandAt(PlaceOf(k)).0 == k
    ensures BandAt(n).2 <==> BandAt(n).0 != Labels && BandAt(n).0 != Shorts
  {
  }

  /** A read of nothing asks the decoder for nothing. */
  function Reading(coding: CodingKind, values: seq<int>): seq<(CodingKind, seq<int>)> {
    if values == [] then [] else [(coding, values)]
  }

  /** The reads of the first n operand bands. */
  function Readings(operands: map<Operand, seq<int>>, n: nat): seq<(CodingKind, seq<int>)> {
    if n == 0 then []
    else
      Readings(operands, n - 1)
        + if BandAt(n - 1).0 in operands then Reading(BandAt(n - 1).1, operands[BandAt(n - 1).0]) else []
  }

  /** The supply holds a band of `count` values from `at` on. */
  predicate BandThere(supply: seq<int>, at: nat, unsigned: bool, count: nat) {
    at + count <= |supply| && (unsigned ==> forall k :: at <= k < at + count ==> supply[k] >= 0)
  }

  method ReadBand(source: BandSource, coding: CodingKind, unsigned: bool, count: nat) returns (ok: bool, values: seq<int>)
    requires source.Valid()
    modifies source
    ensures source.Valid() && source.position <= |source.supply|
    ensures ok <==> BandThere(source.supply, old(source.position), unsigned, count)
    ensures ok ==>
              && source.position == old(source.position) + count && values == source.supply[old(source.position)..source.position]
              && source.delivered == old(source.delivered) + Reading(coding, values)
    ensures ok ==> forall k :: 0 <= k < |values| ==> (if unsigned then 0 else -0x8000_0000) <= values[k] < 0x8000_0000
  {
    ghost var at := source.position;
    ok, values := source.Take(coding, count);
    if ok && unsigned {
      for k := 0 to |values|
        invariant forall j :: 0 <= j < k ==> values[j] >= 0
      {
        if values[k] < 0 {
          assert source.supply[at + k] < 0;
          return false, values;
        }
      }
    }
  }

  /** The operands the opcodes themselves ask for. */
  function AskCount(codes: seq<byte>, g: nat, k: Operand): nat
    requires g <= |codes|
  {
    if g == 0 then 0 else AskCount(codes, g - 1, k) + Asks(codes[g - 1], k)
  }

  method CountSwitches(codes: seq<byte>) returns (n: nat)
    ensures n == SwitchesBefore(codes, |codes|)
  {
    n := 0;
    for g := 0 to |codes|
      invariant n == SwitchesBefore(codes, g)
    {
      if IsSwitch(codes[g]) { n := n + 1; }
    }
  }

  /** The case values and labels the switches ask for beyond the ones counted already. */
  method CountCases(P: Program) returns (ok: bool, values: nat)
    requires |P.caseCounts| == SwitchesBefore(P.codes, |P.codes|)
    ensures ok ==> values == CaseNeed(P, |P.codes|) <= SIZE_MAX && Need(P, |P.codes|, Labels) <= SIZE_MAX
    ensures !ok ==> CaseNeed(P, |P.codes|) > SIZE_MAX || Need(P, |P.codes|, Labels) > SIZE_MAX
  {
    hide Asks;
    values := 0;
    var labels := 0;
    for g := 0 to |P.codes|
      invariant values == CaseNeed(P, g) <= SIZE_MAX
      invariant labels == Need(P, g, Labels) <= SIZE_MAX
    {
      values := values + CaseDemand(P, g);
      labels := labels + Demand(P, g, Labels);
      if values > SIZE_MAX || labels > SIZE_MAX {
        NeedRises(P, g + 1, |P.codes|, Labels);
        CaseNeedRises(P, g + 1, |P.codes|);
        return false, values;
      }
    }
    ok := true;
  }

  method CountOperand(P: Program, k: Operand) returns (n: nat)
    ensures n == Need(P, |P.codes|, k)
  {
    hide Demand;
    n := 0;
    for g := 0 to |P.codes|
      invariant n == Need(P, g, k)
    {
      n := n + Demand(P, g, k);
    }
  }

  /** The demand depends on the opcodes and the case counts alone. */
  lemma {:induction false} NeedSame(P: Program, Q: Program, g: nat)
    requires P.codes == Q.codes && P.caseCounts == Q.caseCounts && g <= |P.codes|
    ensures forall k :: Need(P, g, k) == Need(Q, g, k)
    ensures CaseNeed(P, g) == CaseNeed(Q, g)
  {
    hide Asks; hide IsSwitch;
    if g > 0 {
      NeedSame(P, Q, g - 1);
      assert CaseCount(P, g - 1) == CaseCount(Q, g - 1);
    }
  }

  lemma ConsecutiveCut(P: Program)
    requires Consecutive(P.methods, |P.codes|)
    ensures Cut(P)
  {
  }

  lemma {:induction false} ReadingsKept(operands: map<Operand, seq<int>>, k: Operand, band: seq<int>, n: nat)
    requires n <= PlaceOf(k)
    ensures Readings(operands[k := band], n) == Readings(operands, n)
  {
    hide Reading; hide BandAt; hide PlaceOf;
    if n > 0 {
      OrderComplete(n - 1, k);
      ReadingsKept(operands, k, band, n - 1);
    }
  }

  /** The operands hold a non-negative value wherever the band is unsigned. */
  ghost predicate Unsigned(operands: map<Operand, seq<int>>) {
    forall k, j :: k in operands && k != Labels && k != Shorts && 0 <= j < |operands[k]| ==> operands[k][j] >= 0
  }

  /** The values of the first n operand bands, one band behind the other. */
  function OperandWords(operands: map<Operand, seq<int>>, n: nat): seq<int> {
    if n == 0 then []
    else OperandWords(operands, n - 1) + if BandAt(n - 1).0 in operands then operands[BandAt(n - 1).0] else []
  }

  /** How many values the first n operand bands have. */
  function WordsBefore(P: Program, n: nat): nat {
    if n == 0 then 0 else WordsBefore(P, n - 1) + Need(P, |P.codes|, BandAt(n - 1).0)
  }

  lemma {:induction false} WordsKept(operands: map<Operand, seq<int>>, k: Operand, band: seq<int>, n: nat)
    requires n <= PlaceOf(k)
    ensures OperandWords(operands[k := band], n) == OperandWords(operands, n)
  {
    hide BandAt; hide PlaceOf;
    if n > 0 {
      OrderComplete(n - 1, k);
      WordsKept(operands, k, band, n - 1);
    }
  }

  /** Operands that fill every band. */
  ghost predicate Filled(P: Program, operands: map<Operand, seq<int>>) {
    forall k: Operand :: k in operands && |operands[k]| == Need(P, |P.codes|, k)
  }

  lemma {:induction false} WordsCount(P: Program, operands: map<Operand, seq<int>>, n: nat)
    requires Filled(P, operands)
    ensures |OperandWords(operands, n)| == WordsBefore(P, n)
  {
    hide Need; hide BandAt;
    if n > 0 { WordsCount(P, operands, n - 1); }
  }

  lemma {:induction false} WordsRise(operands: map<Operand, seq<int>>, n: nat, m: nat)
    requires n <= m
    ensures OperandWords(operands, n) <= OperandWords(operands, m)
    decreases m
  {
    hide BandAt;
    if n < m { WordsRise(operands, n, m - 1); }
  }

  /** Operands standing at the front of `rest` have band n where the bands before it end. */
  lemma WordsAt(P: Program, operands: map<Operand, seq<int>>, rest: seq<int>, n: nat)
    requires Filled(P, operands) && Unsigned(operands) && n < BAND_COUNT && OperandWords(operands, BAND_COUNT) <= rest
    ensures BandThere(rest, WordsBefore(P, n), BandAt(n).2, Need(P, |P.codes|, BandAt(n).0))
  {
    hide BandAt; hide Need; hide PlaceOf; hide OperandWords; hide BandThere; hide Unsigned; hide Filled;
    var k := BandAt(n).0;
    OrderComplete(n, k);
    WordsRise(operands, n + 1, BAND_COUNT);
    WordsCount(P, operands, n);
    UnsignedAt(P, operands, n);
    WordsNext(operands, n);
    PieceThere(rest, OperandWords(operands, n), operands[k], BandAt(n).2);
  }

  lemma UnsignedAt(P: Program, operands: map<Operand, seq<int>>, n: nat)
    requires Filled(P, operands) && Unsigned(operands)
    ensures BandAt(n).0 in operands && |operands[BandAt(n).0]| == Need(P, |P.codes|, BandAt(n).0)
    ensures BandAt(n).2 ==> forall j :: 0 <= j < |operands[BandAt(n).0]| ==> operands[BandAt(n).0][j] >= 0
  {
    hide Need; hide BandAt;
    OrderComplete(n, BandAt(n).0);
  }

  /** What stands behind `front` at the start of `rest`. */
  lemma PieceThere(rest: seq<int>, front: seq<int>, band: seq<int>, unsigned: bool)
    requires front + band <= rest && (unsigned ==> forall j :: 0 <= j < |band| ==> band[j] >= 0)
    ensures BandThere(rest, |front|, unsigned, |band|)
    ensures |front| + |band| <= |rest| && rest[|front|..|front| + |band|] == band
  {
    forall j | |front| <= j < |front| + |band|
      ensures rest[j] == band[j - |front|]
    {
      assert rest[j] == (front + band)[j];
    }
  }

  lemma WordsNext(operands: map<Operand, seq<int>>, n: nat)
    requires BandAt(n).0 in operands
    ensures OperandWords(operands, n + 1) == OperandWords(operands, n) + operands[BandAt(n).0]
  {
    hide BandAt;
  }

  /** Full, admissible operand bands stand at the front of `rest`. */
  ghost predicate Operated(P: Program, operands: map<Operand, seq<int>>, rest: seq<int>) {
    Filled(P, operands) && Unsigned(operands) && OperandWords(operands, BAND_COUNT) <= rest
  }

  ghost predicate Operable(P: Program, rest: seq<int>) {
    exists operands :: Operated(P, operands, rest)
  }

  method ReadBands(P: Program, source: BandSource) returns (ok: bool, operands: map<Operand, seq<int>>)
    requires source.Valid()
    modifies source
    ensures source.Valid()
    ensures ok <==> Operable(P, source.supply[old(source.position)..])
    ensures ok ==>
              && Operated(P, operands, source.supply[old(source.position)..])
              && source.delivered == old(source.delivered) + Readings(operands, BAND_COUNT)
  {
    hide Need; hide BandAt; hide PlaceOf; hide BandThere; hide Flatten; hide OperandWords; hide WordsBefore; hide Readings;
    hide Filled; hide Reading;
    ghost var rest := source.supply[source.position..];
    operands := map[];
    NoBands(P, operands);
    for n := 0 to BAND_COUNT
      invariant source.Valid()
      invariant source.position == old(source.position) + WordsBefore(P, n)
      invariant source.supply[old(source.position)..source.position] == OperandWords(operands, n)
      invariant forall k :: k in operands <==> PlaceOf(k) < n
      invariant forall k :: k in operands ==> |operands[k]| == Need(P, |P.codes|, k)
      invariant Unsigned(operands)
      invariant source.delivered == old(source.delivered) + Readings(operands, n)
    {
      var row := BandAt(n);
      var count := CountOperand(P, row.0);
      ghost var at := source.position;
      var band;
      ok, band := ReadBand(source, row.1, row.2, count);
      ThereFrom(source.supply, old(source.position), WordsBefore(P, n), row.2, count);
      if !ok {
        forall other | Operated(P, other, rest)
          ensures false
        {
          WordsAt(P, other, rest, n);
        }
        return;
      }
      OrderComplete(n, row.0);
      ReadingsKept(operands, row.0, band, n);
      WordsKept(operands, row.0, band, n);
      forall k: Operand
        ensures PlaceOf(k) == n <==> k == row.0
      {
        OrderComplete(n, k);
      }
      assert source.supply[old(source.position)..source.position] == source.supply[old(source.position)..at] + band;
      operands := operands[row.0 := band];
      NextBandIs(P, operands, n);
    }
    forall k: Operand
      ensures PlaceOf(k) < BAND_COUNT
    {
      OrderComplete(0, k);
    }
    assert Filled(P, operands) by { AllFilled(P, operands); }
    assert source.supply[old(source.position)..source.position] <= rest;
    assert Operated(P, operands, rest);
    ok := true;
  }

  lemma NoBands(P: Program, operands: map<Operand, seq<int>>)
    ensures WordsBefore(P, 0) == 0 && OperandWords(operands, 0) == [] && Readings(operands, 0) == []
  {
  }

  lemma NextBandIs(P: Program, operands: map<Operand, seq<int>>, n: nat)
    requires BandAt(n).0 in operands
    ensures WordsBefore(P, n + 1) == WordsBefore(P, n) + Need(P, |P.codes|, BandAt(n).0)
    ensures OperandWords(operands, n + 1) == OperandWords(operands, n) + operands[BandAt(n).0]
    ensures Readings(operands, n + 1) == Readings(operands, n) + Reading(BandAt(n).1, operands[BandAt(n).0])
  {
    hide BandAt; hide Reading; hide Need;
  }

  lemma AllFilled(P: Program, operands: map<Operand, seq<int>>)
    requires forall k: Operand :: k in operands
    requires forall k :: k in operands ==> |operands[k]| == Need(P, |P.codes|, k)
    ensures Filled(P, operands)
  {
    hide Need;
  }

  lemma ThereFrom(supply: seq<int>, origin: nat, at: nat, unsigned: bool, count: nat)
    requires origin <= |supply|
    ensures BandThere(supply, origin + at, unsigned, count) <==> BandThere(supply[origin..], at, unsigned, count)
  {
    if BandThere(supply[origin..], at, unsigned, count) {
      forall k | origin + at <= k < origin + at + count
        ensures supply[k] == supply[origin..][k - origin]
      {
      }
    }
  }

  lemma SamePiece(supply: seq<int>, origin: nat, at: nat, count: nat)
    requires origin + at + count <= |supply|
    ensures supply[origin + at..origin + at + count] == supply[origin..][at..at + count]
  {
  }

  lemma SameTail(supply: seq<int>, origin: nat, at: nat)
    requires origin + at <= |supply|
    ensures supply[origin + at..] == supply[origin..][at..]
  {
  }

  /** The switches have more cases than a SIZE_T counts. */
  predicate Crowded(P: Program) {
    CaseNeed(P, |P.codes|) > SIZE_MAX || Need(P, |P.codes|, Labels) > SIZE_MAX
  }

  /** Every value of the program's bands, in the order they are read. */
  function Words(P: Program): seq<int> {
    P.caseCounts + P.caseValues + OperandWords(P.operands, BAND_COUNT)
  }

  /** The integers of `rest` start with the bands of P. */
  ghost predicate Spells(P: Program, rest: seq<int>) {
    Delivered(P) && Unsigned(P.operands) && !Crowded(P) && Words(P) <= rest
  }

  /** They start with the bands of some program with these opcodes. */
  ghost predicate SpeltCode(codes: seq<byte>, methods: seq<Method>, rest: seq<int>) {
    exists P :: Spells(P, rest) && P.codes == codes && P.methods == methods
  }

  /** Read every band the opcodes ask for, in order. */
  method ReadOperands(codes: seq<byte>, methods: seq<Method>, source: BandSource) returns (status: Status, P: Program)
    requires source.Valid() && Consecutive(methods, |codes|) && AllSupported(codes)
    modifies source
    ensures source.Valid()
    ensures P.codes == codes && P.methods == methods
    ensures status == Success <==> SpeltCode(codes, methods, source.supply[old(source.position)..])
    ensures status == Success ==>
              && Spells(P, source.supply[old(source.position)..])
              && source.delivered == old(source.delivered)
                   + Reading(Unsigned5, P.caseCounts) + Reading(Delta5, P.caseValues) + Readings(P.operands, BAND_COUNT)
  {
    hide Supported; hide Need; hide CaseNeed; hide SwitchesBefore; hide Cut; hide Readings; hide Reading; hide Flatten; hide BandThere;
    hide OperandWords; hide Unsigned; hide Filled; hide Spells; hide Operable; hide Operated;
    ghost var rest := source.supply[source.position..];
    ghost var origin := source.position;
    P := Program(codes, methods, [], [], map[]);
    var switches := CountSwitches(codes);
    ThereFrom(source.supply, origin, 0, true, switches);
    var ok, counts := ReadBand(source, Unsigned5, true, switches);
    if !ok {
      NoCounts(codes, methods, rest);
      return InvalidNetworkResponse, P;
    }
    P := P.(caseCounts := counts);
    SamePiece(source.supply, origin, 0, switches);
    var values;
    ok, values := CountCases(P);
    if !ok {
      assert Crowded(P);
      NoProgram(P, rest);
      return IntegerOverflow, P;
    }
    assert !Crowded(P);
    ThereFrom(source.supply, origin, switches, false, values);
    var cases;
    ok, cases := ReadBand(source, Delta5, false, values);
    if !ok {
      NoProgram(P, rest);
      return InvalidNetworkResponse, P;
    }
    SamePiece(source.supply, origin, switches, values);
    SameTail(source.supply, origin, switches + values);
    var operands;
    ok, operands := ReadBands(P, source);
    if !ok {
      NoProgram(P, rest);
      return InvalidNetworkResponse, P;
    }
    ghost var counted := P;
    P := P.(caseValues := cases, operands := operands);
    ProgramRead(counted, P, rest);
    status := Success;
  }

  /** The bands of a program one by one. */
  lemma BandsOf(P: Program, rest: seq<int>)
    requires Spells(P, rest)
    ensures var n, m := |P.caseCounts|, |P.caseValues|;
      && n == SwitchesBefore(P.codes, |P.codes|) && m == CaseNeed(P, |P.codes|) && n + m <= |rest|
      && BandThere(rest, 0, true, n) && P.caseCounts == rest[..n] && BandThere(rest, n, false, m)
      && Operated(P, P.operands, rest[n + m..])
  {
    hide Supported; hide Need; hide CaseNeed; hide SwitchesBefore; hide Cut; hide OperandWords; hide Unsigned;
    var n, m := |P.caseCounts|, |P.caseValues|;
    var words := Words(P);
    assert words == rest[..|words|];
    assert words == [] + P.caseCounts + (P.caseValues + OperandWords(P.operands, BAND_COUNT));
    assert P.caseCounts == words[..n] == rest[..n];
    PieceThere(rest, [], P.caseCounts, true);
    PieceThere(rest, P.caseCounts, P.caseValues, false);
    var last := OperandWords(P.operands, BAND_COUNT);
    assert last == words[n + m..] == rest[n + m..|words|];
    assert last <= rest[n + m..];
  }

  lemma NoCounts(codes: seq<byte>, methods: seq<Method>, rest: seq<int>)
    requires !BandThere(rest, 0, true, SwitchesBefore(codes, |codes|))
    ensures !SpeltCode(codes, methods, rest)
  {
    hide Spells; hide BandThere; hide SwitchesBefore; hide Operated;
    forall P | Spells(P, rest) && P.codes == codes && P.methods == methods
      ensures false
    {
      BandsOf(P, rest);
    }
  }

  /** With the case counts read, the program asks for more than there is. */
  lemma NoProgram(P: Program, rest: seq<int>)
    requires |P.caseCounts| == SwitchesBefore(P.codes, |P.codes|) && P.caseCounts <= rest
    requires
      || Crowded(P)
      || !BandThere(rest, |P.caseCounts|, false, CaseNeed(P, |P.codes|))
      || (|P.caseCounts| + CaseNeed(P, |P.codes|) <= |rest|
          && !Operable(P, rest[|P.caseCounts| + CaseNeed(P, |P.codes|)..]))
    ensures !SpeltCode(P.codes, P.methods, rest)
  {
    hide Spells; hide BandThere; hide SwitchesBefore; hide CaseNeed; hide Need; hide OperandWords; hide Unsigned;
    forall Q | Spells(Q, rest) && Q.codes == P.codes && Q.methods == P.methods
      ensures false
    {
      BandsOf(Q, rest);
      NotCrowded(Q, rest);
      NeedSame(P, Q, |P.codes|);
      OperableSame(P, Q, rest[|Q.caseCounts| + |Q.caseValues|..]);
    }
  }

  lemma OperableSame(P: Program, Q: Program, rest: seq<int>)
    requires P.codes == Q.codes && P.caseCounts == Q.caseCounts && Operated(Q, Q.operands, rest)
    ensures Operable(P, rest)
  {
    hide Need; hide OperandWords; hide Unsigned;
    NeedSame(P, Q, |P.codes|);
    assert Operated(P, Q.operands, rest);
  }

  lemma NotCrowded(P: Program, rest: seq<int>)
    requires Spells(P, rest)
    ensures !Crowded(P)
  {
    hide Delivered; hide Unsigned; hide Words; hide Crowded;
  }

  /** The bands just read are those of the program put together from them. */
  lemma ProgramRead(counted: Program, P: Program, rest: seq<int>)
    requires P == counted.(caseValues := P.caseValues, operands := P.operands) && !Crowded(counted)
    requires Consecutive(P.methods, |P.codes|) && AllSupported(P.codes)
    requires |P.caseCounts| == SwitchesBefore(P.codes, |P.codes|) && |P.caseValues| == CaseNeed(counted, |P.codes|)
    requires forall k :: 0 <= k < |P.caseCounts| ==> P.caseCounts[k] < 0x8000_0000
    requires forall k :: 0 <= k < |P.caseValues| ==> -0x8000_0000 <= P.caseValues[k] < 0x8000_0000
    requires |P.caseCounts| + |P.caseValues| <= |rest| && P.caseCounts == rest[..|P.caseCounts|]
    requires P.caseValues == rest[|P.caseCounts|..|P.caseCounts| + |P.caseValues|]
    requires Operated(counted, P.operands, rest[|P.caseCounts| + |P.caseValues|..])
    ensures Spells(P, rest)
  {
    hide Supported; hide Need; hide CaseNeed; hide SwitchesBefore; hide Cut; hide OperandWords; hide Unsigned;
    NeedSame(counted, P, |P.codes|);
    ConsecutiveCut(P);
    var n := |P.caseCounts| + |P.caseValues|;
    var last := OperandWords(P.operands, BAND_COUNT);
    assert rest[..n] == P.caseCounts + P.caseValues;
    assert rest[..n + |last|] == rest[..n] + rest[n..][..|last|];
    assert Words(P) == rest[..|Words(P)|];
  }

  //
  // The order of the bands
  //

  /** The operand bands as they follow the case values, with their codings. */
  const OPERAND_BANDS: seq<(Operand, CodingKind)> := [
    (Bytes, Byte1), (Shorts, Delta5), (Integers, Delta5), (Floats, Delta5), (Longs, Delta5), (Doubles, Delta5), (Strings, Delta5),
    (Loadables, Delta5), (Classes, Unsigned5), (Fields, Delta5), (Methods, Unsigned5), (InterfaceMethods, Delta5), (Dynamics, Delta5),
    (Locals, Unsigned5), (Labels, Branch5), (ThisMethods, Unsigned5), (SuperMethods, Unsigned5), (Inits, Unsigned5)]

  function Band(operands: map<Operand, seq<int>>, k: Operand): seq<int> {
    if k in operands then operands[k] else []
  }

  /** The integers of the bands, one band behind the other. */
  function InOrder(bands: seq<(Operand, CodingKind)>, operands: map<Operand, seq<int>>): seq<int> {
    if bands == [] then [] else Band(operands, bands[0].0) + InOrder(bands[1..], operands)
  }

  function Coded(operands: map<Operand, seq<int>>, k: Operand, coding: CodingKind): seq<(CodingKind, seq<int>)> {
    if Band(operands, k) == [] then [] else [(coding, Band(operands, k))]
  }

  /** The bands that are not empty, each with its coding. */
  function Codings(bands: seq<(Operand, CodingKind)>, operands: map<Operand, seq<int>>): seq<(CodingKind, seq<int>)> {
    if bands == [] then []
    else Coded(operands, bands[0].0, bands[0].1) + Codings(bands[1..], operands)
  }

  lemma BandsAgree(n: nat)
    requires n < BAND_COUNT
    ensures BAND_COUNT == |OPERAND_BANDS| && BandAt(n).0 == OPERAND_BANDS[n].0 && BandAt(n).1 == OPERAND_BANDS[n].1
  {
    hide BandAt; hide OPERAND_BANDS;
    SoMany();
    if n < 6 { EarlyBands(n); } else if n < 12 { MiddleBands(n); } else { LateBands(n); }
  }

  lemma SoMany()
    ensures |OPERAND_BANDS| == 18
  {
  }

  lemma EarlyBands(n: nat)
    requires 0 <= n < 6
    ensures |OPERAND_BANDS| == 18 && BandAt(n).0 == OPERAND_BANDS[n].0 && BandAt(n).1 == OPERAND_BANDS[n].1
  {
  }

  lemma MiddleBands(n: nat)
    requires 6 <= n < 12
    ensures |OPERAND_BANDS| == 18 && BandAt(n).0 == OPERAND_BANDS[n].0 && BandAt(n).1 == OPERAND_BANDS[n].1
  {
  }

  lemma LateBands(n: nat)
    requires 12 <= n < 18
    ensures |OPERAND_BANDS| == 18 && BandAt(n).0 == OPERAND_BANDS[n].0 && BandAt(n).1 == OPERAND_BANDS[n].1
  {
  }

  lemma {:induction false} OperandsInOrder(operands: map<Operand, seq<int>>, n: nat)
    requires n <= BAND_COUNT == |OPERAND_BANDS|
    ensures OperandWords(operands, BAND_COUNT) == OperandWords(operands, n) + InOrder(OPERAND_BANDS[n..], operands)
    ensures Readings(operands, BAND_COUNT) == Readings(operands, n) + Codings(OPERAND_BANDS[n..], operands)
    decreases BAND_COUNT - n
  {
    hide BandAt; hide OPERAND_BANDS; hide OperandWords; hide Readings; hide Band; hide InOrder; hide Codings;
    var rest := OPERAND_BANDS[n..];
    if n < BAND_COUNT {
      OperandsInOrder(operands, n + 1);
      assert rest[1..] == OPERAND_BANDS[n + 1..];
      BandsAgree(n);
      OneMore(operands, n);
      FirstBand(rest, operands);
      var k := BandAt(n);
      Grouped(OperandWords(operands, n), Band(operands, k.0), InOrder(rest[1..], operands));
      Grouped(Readings(operands, n), Coded(operands, k.0, k.1), Codings(rest[1..], operands));
    } else {
      assert rest == [];
      NothingInOrder(operands);
    }
  }

  lemma Grouped<T>(a: seq<T>, b: seq<T>, c: seq<T>)
    ensures (a + b) + c == a + (b + c)
  {
  }

  lemma FirstBand(bands: seq<(Operand, CodingKind)>, operands: map<Operand, seq<int>>)
    requires bands != []
    ensures InOrder(bands, operands) == Band(operands, bands[0].0) + InOrder(bands[1..], operands)
    ensures Codings(bands, operands) == Coded(operands, bands[0].0, bands[0].1) + Codings(bands[1..], operands)
  {
  }

  lemma NothingInOrder(operands: map<Operand, seq<int>>)
    ensures InOrder([], operands) == [] && Codings([], operands) == []
  {
  }

  lemma OneMore(operands: map<Operand, seq<int>>, n: nat)
    requires n < BAND_COUNT
    ensures var k := BandAt(n);
      && OperandWords(operands, n + 1) == OperandWords(operands, n) + Band(operands, k.0)
      && Readings(operands, n + 1) == Readings(operands, n) + Coded(operands, k.0, k.1)
  {
    hide BandAt;
  }

  /** A program's integers are its case counts, its case values and its operand bands in order, each read in its own coding. */
  lemma WordsInOrder(P: Program)
    ensures Words(P) == P.caseCounts + P.caseValues + InOrder(OPERAND_BANDS, P.operands)
    ensures Readings(P.operands, BAND_COUNT) == Codings(OPERAND_BANDS, P.operands)
  {
    hide BandAt; hide OPERAND_BANDS;
    BandsAgree(0);
    assert OPERAND_BANDS[0..] == OPERAND_BANDS;
    OperandsInOrder(P.operands, 0);
  }
}
