// The assembler as a whole, and when it succeeds.
module PackedAssembler {
  import opened Common
  import opened LayoutModel
  import opened BandSupply
  import opened PackedCode
  import opened PackedFacts
  import opened PackedReader
  import opened PackedSizing
  import opened PackedEmitter
  import opened JavaCode
  import opened PackedListing
  import opened PackedDisassembly

  //
  // When an instruction can be encoded
  //

  /** The instruction `distance` away is in the method and near enough for the width. */
  predicate Reachable(P: Program, m: Method, i: nat, distance: int, width: nat)
    requires MethodIn(P, m) && i < m.length
  {
    && 0 <= i + distance < m.length
    && (if width == 2 then -0x8000 <= Offset(P, m.first, i + distance) - Offset(P, m.first, i) < 0x8000
        else -0x8000_0000 <= Offset(P, m.first, i + distance) - Offset(P, m.first, i) < 0x8000_0000)
  }

  /** Label j of the instruction can be written in the width the opcode has for it. */
  predicate LabelReachable(P: Program, m: Method, i: nat, j: nat)
    requires MethodIn(P, m) && i < m.length
  {
    var op := P.codes[m.first + i];
    Reachable(P, m, i, Arg(P, m.first + i, Labels, j), if IsSwitch(op) || op == 200 || op == 201 then 4 else 2)
  }

  /** Local numbers fit a byte, every label is reachable, and a table switch does not run past the largest int. */
  ghost predicate Encodable(P: Program, m: Method, i: nat)
    requires MethodIn(P, m) && i < m.length
  {
    var g := m.first + i;
    var op := P.codes[g];
    && (IsLocal(op) || IsIncrement(op) ==> Arg(P, g, Locals, 0) <= 0xff)
    && (forall j: nat :: j < Demand(P, g, Labels) ==>
          LabelReachable(P, m, i, j))
    && (op == 170 ==> -0x8000_0000 <= CaseValue(P, g, 0) + CaseCount(P, g) - 1 < 0x8000_0000)
  }

  lemma JumpEncodes(P: Program, m: Method, i: nat, distance: int, width: nat)
    requires MethodIn(P, m) && i < m.length && (width == 2 || width == 4)
    ensures Jump(P, m, i, distance, width).Code? <==> Reachable(P, m, i, distance, width)
  {
    hide Offset;
  }

  lemma {:induction false} CasesEncode(P: Program, m: Method, i: nat, n: nat)
    requires MethodIn(P, m) && i < m.length && IsSwitch(P.codes[m.first + i])
    ensures Cases(P, m, i, n).Code? <==>
              forall j: nat :: 1 <= j <= n ==> LabelReachable(P, m, i, j)
    decreases n
  {
    hide Jump; hide Reachable; hide Arg; hide CaseValue;
    if n > 0 {
      CasesEncode(P, m, i, n - 1);
      JumpEncodes(P, m, i, Arg(P, m.first + i, Labels, n), 4);
      assert LabelReachable(P, m, i, n) <==> Jump(P, m, i, Arg(P, m.first + i, Labels, n), 4).Code?;
    }
  }

  /** Exactly the encodable instructions are encoded. */
  lemma InstructionEncodes(P: Program, m: Method, i: nat)
    requires MethodIn(P, m) && i < m.length
    ensures Instruction(P, m, i).Code? <==> Encodable(P, m, i)
  {
    hide Jump; hide Reachable; hide Arg; hide CaseValue; hide Cases; hide Offset; hide CaseCount; hide SwitchBytes;
    var g := m.first + i;
    var op := P.codes[g];
    if IsSwitch(op) {
      SwitchEncodes(P, m, i);
    } else {
      assert CaseCount(P, g) == 0 by { OnlySwitchesCount(P, g); }
      var width := if op == 200 || op == 201 then 4 else 2;
      JumpEncodes(P, m, i, Arg(P, g, Labels, 0), width);
      assert LabelReachable(P, m, i, 0) <==> Jump(P, m, i, Arg(P, g, Labels, 0), width).Code?;
      assert Demand(P, g, Labels) == One(IsLabel(op));
    }
  }

  lemma OnlySwitchesCount(P: Program, g: nat)
    requires g < |P.codes| && !IsSwitch(P.codes[g])
    ensures CaseCount(P, g) == 0
  {
  }

  lemma SwitchEncodes(P: Program, m: Method, i: nat)
    requires MethodIn(P, m) && i < m.length && IsSwitch(P.codes[m.first + i])
    ensures Instruction(P, m, i).Code? <==> Encodable(P, m, i)
  {
    hide Jump; hide Reachable; hide Arg; hide CaseValue; hide Cases; hide Offset; hide CaseCount;
    var g := m.first + i;
    SwitchIs(P, m, i);
    JumpEncodes(P, m, i, Arg(P, g, Labels, 0), 4);
    CasesEncode(P, m, i, CaseCount(P, g));
    assert Demand(P, g, Labels) == 1 + CaseCount(P, g) by { SwitchAgrees(P.codes[g], Labels); }
    assert LabelReachable(P, m, i, 0) <==> Jump(P, m, i, Arg(P, g, Labels, 0), 4).Code?;
    if Encodable(P, m, i) {
      assert LabelReachable(P, m, i, 0);
    } else if Instruction(P, m, i).Code? {
      forall j: nat | j < Demand(P, g, Labels)
        ensures LabelReachable(P, m, i, j)
      {
        if j == 0 { assert Jump(P, m, i, Arg(P, g, Labels, 0), 4).Code?; }
      }
    }
  }

  lemma {:induction false} MethodEncodes(P: Program, m: Method, n: nat)
    requires MethodIn(P, m) && n <= m.length
    ensures MethodCode(P, m, n).Code? <==> forall i: nat :: i < n ==> Encodable(P, m, i)
    decreases n
  {
    hide Encodable; hide Instruction;
    if n > 0 {
      MethodEncodes(P, m, n - 1);
      InstructionEncodes(P, m, n - 1);
    }
  }

  ghost predicate MethodEncodable(P: Program, c: nat)
    requires Cut(P) && c < |P.methods|
  {
    assert MethodOk(P, c);
    forall i: nat :: i < P.methods[c].length ==> Encodable(P, P.methods[c], i)
  }

  /** The assembler accepts a program exactly when it can encode every instruction of every method. */
  lemma {:induction false} ProgramEncodes(P: Program, n: nat)
    requires Cut(P) && n <= |P.methods|
    ensures AllCode(P, n).Code? <==> forall c: nat :: c < n ==> MethodEncodable(P, c)
    decreases n
  {
    hide Cut; hide Encodable; hide MethodCode;
    if n > 0 {
      CutMethod(P, n - 1);
      ProgramEncodes(P, n - 1);
      MethodEncodes(P, P.methods[n - 1], P.methods[n - 1].length);
      assert MethodEncodable(P, n - 1) <==> MethodCode(P, P.methods[n - 1], P.methods[n - 1].length).Code?;
    }
  }

  //
  // Relocations
  //

  /** An open index: its bytes are zero and lie inside its own instruction. */
  predicate RelocationFits(P: Program, c: nat, i: nat, r: Relocation)
    requires c < |P.methods| && MethodIn(P, P.methods[c]) && i < P.methods[c].length
  {
    var m := P.methods[c];
    && r.codeIndex == c && (r.operandWidth == 1 || r.operandWidth == 2)
    && Offset(P, m.first, i) < r.operandOffset
    && r.operandOffset + r.operandWidth <= Offset(P, m.first, i + 1) <= CodeLength(P, m)
    && MethodCode(P, m, m.length).Code?
    && CodeLength(P, m) == |MethodCode(P, m, m.length).bytes|
    && MethodCode(P, m, m.length).bytes[r.operandOffset..r.operandOffset + r.operandWidth] == Zeros(r.operandWidth)
  }

  lemma RelocationBytes(P: Program, c: nat, i: nat)
    requires c < |P.methods| && MethodIn(P, P.methods[c]) && i < P.methods[c].length
    requires Instruction(P, P.methods[c], i).Code? && Relocations(P, c, i) != []
    ensures var op := P.codes[P.methods[c].first + i];
      var r := Relocations(P, c, i)[0];
      var h := |OpcodeBytes(op)|;
      var s := Instruction(P, P.methods[c], i).bytes;
      && Relocations(P, c, i) == [r] && r.codeIndex == c && r.operandOffset == Offset(P, P.methods[c].first, i) + h
      && (r.operandWidth == 1 || r.operandWidth == 2)
      && h + r.operandWidth <= |s| && s[h..h + r.operandWidth] == Zeros(r.operandWidth)
  {
    hide Offset; hide OpcodeBytes; hide OperandBytes; hide Relocations;
    OpenOperand(P, c, i);
    var h := OpcodeBytes(P.codes[P.methods[c].first + i]);
    var b := OperandBytes(P, P.methods[c], i).bytes;
    var w := Relocations(P, c, i)[0].operandWidth;
    assert (h + b)[|h|..|h| + w] == b[..w];
  }

  /** The operand of an opcode with a constant starts with the open index. */
  lemma OpenOperand(P: Program, c: nat, i: nat)
    requires c < |P.methods| && MethodIn(P, P.methods[c]) && i < P.methods[c].length && Relocations(P, c, i) != []
    ensures var m := P.methods[c];
      var r := Relocations(P, c, i)[0];
      var b := OperandBytes(P, m, i);
      && Relocations(P, c, i) == [r] && r.codeIndex == c
      && r.operandOffset == Offset(P, m.first, i) + |OpcodeBytes(P.codes[m.first + i])| && (r.operandWidth == 1 || r.operandWidth == 2)
      && b.Code? && r.operandWidth <= |b.bytes| && b.bytes[..r.operandWidth] == Zeros(r.operandWidth)
  {
    hide Offset; hide Arg; hide OpcodeBytes; hide ReferenceBand; hide ReferenceKindOf; hide SwitchBytes; hide Jump; hide BigEndian;
    hide Zeros; hide ReferenceWidth;
    ZeroPairs();
    var m := P.methods[c];
    var op := P.codes[m.first + i];
    WidthIs(op);
    if IsReference(op) {
      var w := ReferenceWidth(op);
      var tail := OperandBytes(P, m, i).bytes[w..];
      assert OperandBytes(P, m, i).bytes == Zeros(w) + tail;
    }
  }

  lemma ZeroPairs()
    ensures Zeros(2) == [0, 0]
  {
  }

  lemma WidthIs(op: byte)
    ensures ReferenceWidth(op) == 1 || ReferenceWidth(op) == 2
    ensures |Zeros(ReferenceWidth(op))| == ReferenceWidth(op)
  {
  }

  /** Every open index of an assembled method lies in its own instruction, over zero bytes. */
  lemma RelocationsFit(P: Program, c: nat, i: nat)
    requires Delivered(P) && c < |P.methods| && MethodIn(P, P.methods[c]) && i < P.methods[c].length
    requires MethodCode(P, P.methods[c], P.methods[c].length).Code?
    ensures |Relocations(P, c, i)| <= 1
    ensures forall r :: r in Relocations(P, c, i) ==> RelocationFits(P, c, i, r)
  {
    hide Offset; hide Instruction; hide MethodCode; hide Relocations; hide OpcodeBytes; hide Zeros; hide Cut; hide Need; hide CaseNeed;
    hide Supported;
    var m := P.methods[c];
    InstructionStands(P, m, i, m.length);
    MethodLength(P, m, m.length);
    OffsetsGrow(P, m.first, i + 1, m.length);
    if Relocations(P, c, i) != [] {
      RelocationBytes(P, c, i);
      var r := Relocations(P, c, i)[0];
      var b := MethodCode(P, m, m.length).bytes;
      var at, h := Offset(P, m.first, i), |OpcodeBytes(P.codes[m.first + i])|;
      var s := Instruction(P, m, i).bytes;
      SliceOfSlice(b, at, |s|, h, r.operandWidth);
      assert b[r.operandOffset..r.operandOffset + r.operandWidth] == s[h..h + r.operandWidth];
    }
  }

  /** The slice of the code bytes at a method's offset is that method's assembled code. */
  lemma MethodSlice(P: Program, code: seq<byte>, c: nat)
    requires Delivered(P) && AllCode(P, |P.methods|) == Code(code) && c < |P.methods|
    ensures MethodOk(P, c) && CodeOffset(P, c) + CodeLength(P, P.methods[c]) <= |code|
    ensures Assembled(code[CodeOffset(P, c)..CodeOffset(P, c) + CodeLength(P, P.methods[c])], P, P.methods[c])
  {
    hide Offset; hide MethodCode; hide AllCode; hide Need; hide CaseNeed; hide Supported; hide CodeOffset; hide Cut;
    CutMethod(P, c);
    CodeStands(P, c, |P.methods|);
  }

  /** Offsets and lengths of the methods in their common code. */
  ghost predicate Sliced(P: Program, offsets: seq<nat>, lengths: seq<nat>) {
    && Cut(P) && |offsets| == |lengths| == |P.methods|
    && forall c: nat :: c < |P.methods| ==> MethodOk(P, c) && offsets[c] == CodeOffset(P, c) && lengths[c] == CodeLength(P, P.methods[c])
  }

  /** All methods, disassembled from the common code and the common relocations, say what the packed opcodes name. */
  lemma {:induction false} ProgramListed(P: Program, code: seq<byte>, offsets: seq<nat>, lengths: seq<nat>, c: nat)
    requires Delivered(P) && Unsigned(P.operands) && Sliced(P, offsets, lengths) && AllCode(P, |P.methods|) == Code(code)
    requires c <= |P.methods|
    ensures Listings(code, offsets, lengths, c, RelocationsAfter(P, c)) == Some(AllMeanings(P, c))
    decreases |P.methods| - c
  {
    hide Delivered; hide Unsigned; hide AllCode; hide CodeOffset; hide Offset; hide Listing; hide Meanings; hide Cut; hide Assembled;
    hide MethodRelocations; hide RelocationsFrom;
    if c < |P.methods| {
      var m := P.methods[c];
      ProgramListed(P, code, offsets, lengths, c + 1);
      MethodSlice(P, code, c);
      var slice := code[offsets[c]..offsets[c] + lengths[c]];
      MethodListed(slice, P, c, 0, RelocationsAfter(P, c + 1));
      RelocationsJoin(P, c, 0);
      MethodStarts(P, c);
      assert [] + RelocationsFrom(P, c, 0) == RelocationsFrom(P, c, 0);
    }
  }

  lemma MethodStarts(P: Program, c: nat)
    requires c < |P.methods| && MethodIn(P, P.methods[c])
    ensures MethodRelocations(P, c, 0) == [] && Offset(P, P.methods[c].first, 0) == 0
  {
  }

  lemma AllRelocationsAfter(P: Program)
    requires Cut(P)
    ensures AllRelocations(P, |P.methods|) == RelocationsAfter(P, 0)
  {
    hide Cut; hide MethodRelocations; hide RelocationsAfter;
    AllJoin(P, 0);
    assert AllRelocations(P, 0) == [];
    assert [] + RelocationsAfter(P, 0) == RelocationsAfter(P, 0);
  }

  //
  // All passes
  //

  /** The instruction map can be indexed with 32 bits. */
  ghost predicate MapFits(P: Program) {
    forall c: nat :: c < |P.methods| ==> P.methods[c].first + c <= 0xffff_ffff && P.methods[c].length <= 0xffff_ffff
  }

  /** Every method can be sized, mapped and encoded. */
  ghost predicate Assemblable(P: Program)
    requires Cut(P)
  {
    && (forall c: nat :: c < |P.methods| ==> Sized(P, c)) && MapFits(P)
    && (forall c: nat :: c < |P.methods| ==> MethodEncodable(P, c))
  }

  /** What the assembler leaves behind. */
  class CodeBands {
    var codeOffsets: seq<nat>
    var codeLengths: seq<nat>
    var codeBytes: array<byte>
    var relocations: array<Relocation>
    var instructionMapOffsets: seq<nat>
    var instructionCounts: seq<nat>
    var instructionByteOffsets: seq<nat>
    /** The program the bands spelled. */
    ghost var program: Program

    constructor ()
      ensures fresh(codeBytes) && fresh(relocations)
    {
      codeOffsets, codeLengths := [], [];
      codeBytes, relocations := new byte[0], new Relocation[0];
      instructionMapOffsets, instructionCounts, instructionByteOffsets := [], [], [];
      program := Program([], [], [], [], map[]);
    }

    /** The bands hold the code of P: every method at its offset, every instruction in the map, every relocation in its place. */
    ghost predicate Holds(P: Program)
      reads this, codeBytes, relocations
    {
      && Delivered(P) && AllCode(P, |P.methods|) == Code(codeBytes[..])
      && relocations[..] == AllRelocations(P, |P.methods|)
      && |codeOffsets| == |codeLengths| == |instructionMapOffsets| == |instructionCounts| == |P.methods|
      && (forall c: nat :: c < |P.methods| ==>
            && MethodOk(P, c) && codeOffsets[c] == CodeOffset(P, c) && codeLengths[c] == CodeLength(P, P.methods[c])
            && Mapped(P, instructionMapOffsets, instructionCounts, instructionByteOffsets, c))
    }

    /** The code read by a virtual machine says what the packed opcodes and the bands say. */
    ghost predicate Says(P: Program)
      reads this, codeBytes, relocations
    {
      && Cut(P) && |codeOffsets| == |codeLengths|
      && Listings(codeBytes[..], codeOffsets, codeLengths, 0, relocations[..]) == Some(AllMeanings(P, 0))
    }

    lemma HoldsSays(P: Program)
      requires Holds(P) && Unsigned(P.operands)
      ensures Says(P)
    {
      hide Delivered; hide Unsigned; hide AllCode; hide CodeOffset; hide Offset; hide AllMeanings; hide Mapped; hide Cut; hide MethodOk;
      hide AllRelocations; hide RelocationsAfter; hide Listings;
      CutOf(P);
      AllRelocationsAfter(P);
      ProgramListed(P, codeBytes[..], codeOffsets, codeLengths, 0);
    }

    /** Size, map and emit a program whose bands have been read. */
    method Assemble(P: Program) returns (status: Status)
      requires Delivered(P)
      modifies this
      ensures program == P && (status == Success <==> Assemblable(P))
      ensures status == Success ==> Holds(P)
    {
      hide Delivered; hide Sized; hide LaidOut; hide Cut; hide AllCode; hide AllRelocations; hide CodeOffset; hide Mapped; hide MethodOk;
      hide Offset; hide MethodEncodable; hide ReferenceTotal;
      program := P;
      CutOf(P);
      ProgramEncodes(P, |P.methods|);
      var ok, offsets, total;
      ok, offsets, codeOffsets, codeLengths, total := LayOut(P);
      if !ok {
        return IntegerOverflow;
      }
      LaidOutSizes(P, offsets, codeOffsets, codeLengths);
      ok, instructionMapOffsets, instructionCounts, instructionByteOffsets := BuildMap(P, offsets, codeLengths, codeOffsets);
      if !ok {
        return IntegerOverflow;
      }
      var emitter := new CodeEmitter(P, offsets, total, ReferenceTotal(P));
      status := emitter.EmitAll(codeOffsets, codeLengths);
      codeBytes, relocations := emitter.output, emitter.relocations;
    }

    /**
     * Scan, read, size and emit. The program is delivered exactly when the opcodes can be read and the supply
     * goes on with its bands; a delivered program is assembled exactly when it is assemblable.
     */
    method ReadBytecodeBands(input: seq<byte>, start: nat, codeCount: nat, source: BandSource)
      returns (status: Status, end: nat, ghost delivered: bool)
      requires start <= |input| && source.Valid()
      modifies this, source
      ensures source.Valid() && start <= end <= |input|
      // the opcodes are those of the input
      ensures Readable(input, start, codeCount, 0) ==>
                && |program.methods| == codeCount && Consecutive(program.methods, |program.codes|) && AllSupported(program.codes)
                && input[start..end] == Packed(program.codes, program.methods)
      ensures delivered <==>
                && Readable(input, start, codeCount, 0)
                && SpeltCode(program.codes, program.methods, source.supply[old(source.position)..])
      ensures delivered ==>
                && Spells(program, source.supply[old(source.position)..])
                && source.delivered == old(source.delivered) + Reading(Unsigned5, program.caseCounts)
                     + Reading(Delta5, program.caseValues) + Readings(program.operands, BAND_COUNT)
      ensures status == Success <==> delivered && Assemblable(program)
      // the code then holds the program, and disassembled it says what its opcodes and bands say
      ensures status == Success ==> Holds(program) && Says(program)
    {
      hide Delivered; hide Readable; hide Packed; hide Readings; hide Assemblable; hide Cut; hide Consecutive; hide AllSupported;
      hide Unsigned; hide Reading; hide Crowded; hide BandSource.Valid; hide Words; hide SpeltCode;
      delivered := false;
      var codes, methods;
      status, end, codes, methods := ScanMethods(input, start, codeCount);
      if status != Success {
        return;
      }
      var P;
      status, P := ReadOperands(codes, methods, source);
      program := P;
      if status != Success {
        return;
      }
      delivered := true;
      status := Assemble(P);
      if status == Success {
        HoldsSays(P);
      }
    }
  }

  lemma LaidOutSizes(P: Program, offsets: seq<nat>, codeOffsets: seq<nat>, codeLengths: seq<nat>)
    requires Cut(P) && LaidOut(P, offsets, codeOffsets, codeLengths, |P.methods|)
    ensures |codeOffsets| == |codeLengths| == |P.methods|
    ensures forall c: nat :: c < |P.methods| ==>
              MethodOk(P, c) && codeOffsets[c] == CodeOffset(P, c) && codeLengths[c] == CodeLength(P, P.methods[c])
  {
    hide Offset;
    forall c: nat | c < |P.methods|
      ensures MethodOk(P, c) && codeOffsets[c] == CodeOffset(P, c) && codeLengths[c] == CodeLength(P, P.methods[c])
    {
      assert MethodLaidOut(P, offsets, codeOffsets, codeLengths, c);
    }
  }
}
