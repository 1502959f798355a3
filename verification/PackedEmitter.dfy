// The third pass of the assembler: one cursor per operand band, one write position, and the code
// bytes written in place.
module PackedEmitter {
  import opened Common
  import opened PackedCode
  import opened PackedFacts
  import opened PackedSizing

  /** How many values of band k the third pass takes for an opcode, not counting switch cases. */
  function Takes(op: byte, k: Operand): nat {
    if op == 16 || op == 188 then One(k == Bytes)
    else if op == 17 then One(k == Shorts)
    else if 21 <= op <= 25 || 54 <= op <= 58 || op == 169 then One(k == Locals)
    else if op == 132 then One(k == Locals || k == Bytes)
    else if op == 170 || op == 171 then One(k == Labels)
    else if op == 230 || op == 231 then One(k == Inits)
    else if 206 <= op <= 208 || 213 <= op <= 215 then One(k == ThisMethods)
    else if 220 <= op <= 222 || 227 <= op <= 229 then One(k == SuperMethods)
    else if IsReference(op) then One(k == ReferenceBand(op) || (op == 197 && k == Bytes))
    else if 153 <= op <= 168 || op == 198 || op == 199 || op == 200 || op == 201 then One(k == Labels)
    else 0
  }

  lemma ReferenceAgrees(op: byte, k: Operand)
    requires IsReference(op) && 178 <= op
    ensures Asks(op, k) == One(k == ReferenceBand(op) || (op == 197 && k == Bytes))
  {
    hide Asks;
    if op <= 186 {
      MemberAgrees(op, k);
    } else if op <= 197 {
      ClassAgrees(op, k);
    } else {
      LateReferenceAgrees(op, k);
    }
  }

  lemma MemberAgrees(op: byte, k: Operand)
    requires 178 <= op <= 186
    ensures Asks(op, k) == One(k == ReferenceBand(op))
  {
  }

  lemma ClassAgrees(op: byte, k: Operand)
    requires op == 187 || op == 189 || op == 192 || op == 193 || op == 197
    ensures Asks(op, k) == One(k == Classes || (op == 197 && k == Bytes))
  {
  }

  lemma LateReferenceAgrees(op: byte, k: Operand)
    requires 233 <= op <= 243
    ensures Asks(op, k) == One(k == ReferenceBand(op))
  {
  }

  lemma MethodAgrees(op: byte, k: Operand)
    requires 206 <= op <= 208 || 213 <= op <= 215 || 220 <= op <= 222 || 227 <= op <= 229
    ensures Asks(op, k) == if op <= 215 then One(k == ThisMethods) else One(k == SuperMethods)
  {
  }

  lemma ByteAgrees(op: byte, k: Operand)
    requires op == 16 || op == 188 || op == 132
    ensures Asks(op, k) == One(k == Bytes || (op == 132 && k == Locals))
  {
  }

  lemma ShortAgrees(op: byte, k: Operand)
    requires op == 17
    ensures Asks(op, k) == One(k == Shorts)
  {
  }

  lemma ConstantAgrees(op: byte, k: Operand)
    requires op == 18 || op == 19 || op == 20
    ensures Asks(op, k) == One(k == if op == 20 then Longs else Strings)
  {
  }

  lemma SwitchAgrees(op: byte, k: Operand)
    requires op == 170 || op == 171
    ensures Asks(op, k) == One(k == Labels)
  {
  }

  lemma InitAgrees(op: byte, k: Operand)
    requires op == 230 || op == 231
    ensures Asks(op, k) == One(k == Inits)
  {
  }

  lemma LocalAgrees(op: byte, k: Operand)
    requires 21 <= op <= 25 || 54 <= op <= 58 || op == 169
    ensures Asks(op, k) == One(k == Locals)
  {
  }

  lemma LabelAgrees(op: byte, k: Operand)
    requires 153 <= op <= 168 || op == 198 || op == 199 || op == 200 || op == 201
    ensures Asks(op, k) == One(k == Labels)
  {
  }

  predicate TakesNothing(op: byte) {
    && op != 16 && op != 17 && op != 188 && op != 132 && op != 169 && op != 170 && op != 171 && op != 230 && op != 231
    && !(21 <= op <= 25) && !(54 <= op <= 58) && !(206 <= op <= 208) && !(213 <= op <= 215) && !(220 <= op <= 222)
    && !(227 <= op <= 229) && !IsReference(op) && !(153 <= op <= 168) && !(198 <= op <= 201)
  }

  lemma NothingAgrees(op: byte, k: Operand)
    requires TakesNothing(op)
    ensures Asks(op, k) == 0
  {
    match k
    case _ =>
  }

  /** The third pass takes from every band exactly what the first pass counted. */
  lemma TablesAgree(op: byte, k: Operand)
    ensures Takes(op, k) == Asks(op, k)
  {
    if 178 <= op { HighAgree(op, k); } else { LowAgree(op, k); }
  }

  lemma HighAgree(op: byte, k: Operand)
    requires 178 <= op
    ensures Takes(op, k) == Asks(op, k)
  {
    hide Asks;
    if 198 <= op <= 201 {
      LabelAgrees(op, k);
    } else if 206 <= op <= 229 && !TakesNothing(op) {
      MethodAgrees(op, k);
    } else if TakesNothing(op) {
      NothingAgrees(op, k);
    } else if IsReference(op) {
      ReferenceAgrees(op, k);
    } else if op == 230 || op == 231 {
      InitAgrees(op, k);
    } else {
      ByteAgrees(op, k);
    }
  }

  lemma LowAgree(op: byte, k: Operand)
    requires op < 178
    ensures Takes(op, k) == Asks(op, k)
  {
    hide Asks;
    if 21 <= op <= 25 || 54 <= op <= 58 || op == 169 {
      LocalAgrees(op, k);
    } else if 153 <= op <= 168 {
      LabelAgrees(op, k);
    } else if TakesNothing(op) {
      NothingAgrees(op, k);
    } else if op == 17 {
      ShortAgrees(op, k);
    } else if 18 <= op <= 20 {
      ConstantAgrees(op, k);
    } else if op == 170 || op == 171 {
      SwitchAgrees(op, k);
    } else {
      ByteAgrees(op, k);
    }
  }

  /** Opcode g finds all its operands. */
  lemma OperandsThere(P: Program, g: nat, k: Operand)
    requires Delivered(P) && g < |P.codes|
    ensures k in P.operands
    ensures Need(P, g, k) + Takes(P.codes[g], k) + (if k == Labels then CaseCount(P, g) else 0) == Need(P, g + 1, k) <= |P.operands[k]|
    ensures forall j: nat :: Need(P, g, k) + j < |P.operands[k]| ==> P.operands[k][Need(P, g, k) + j] == Arg(P, g, k, j)
  {
    hide Takes; hide Asks; hide CaseCount; hide Supported; hide Cut; hide CaseNeed; hide SwitchesBefore;
    NeedRises(P, g + 1, |P.codes|, k);
    TablesAgree(P.codes[g], k);
  }

  const AT_START: map<Operand, nat> := map[
    Bytes := 0, Shorts := 0, Locals := 0, Labels := 0, Inits := 0, ThisMethods := 0, SuperMethods := 0, Integers := 0,
    Floats := 0, Longs := 0, Doubles := 0, Strings := 0, Loadables := 0, Classes := 0, Fields := 0, Methods := 0,
    InterfaceMethods := 0, Dynamics := 0]

  lemma AllAtStart()
    ensures forall k: Operand :: k in AT_START && AT_START[k] == 0
  {
    forall k: Operand
      ensures k in AT_START && AT_START[k] == 0
    {
      match k
      case _ => StartsAt(k);
    }
  }

  lemma StartsAt(k: Operand)
    ensures k in AT_START && AT_START[k] == 0
  {
    match k
    case Bytes => case Shorts => case Locals => case Labels => case Inits => case ThisMethods => case SuperMethods =>
    case Integers => case Floats => case Longs => case Doubles => case Strings => case Loadables => case Classes =>
    case Fields => case Methods => case InterfaceMethods => case Dynamics =>
  }

  lemma OneNoted(P: Program, c: nat, i: nat)
    requires c < |P.methods| && MethodIn(P, P.methods[c]) && i < P.methods[c].length
    requires var op := P.codes[P.methods[c].first + i]; IsInit(op) || IsThisMethod(op) || IsSuperMethod(op) || IsReference(op)
    ensures |Relocations(P, c, i)| == 1
  {
    hide Relocations; hide ReferenceAsks;
    RelocationCounted(P, c, i);
    ReferenceAsksOnce(P.codes[P.methods[c].first + i]);
  }

  /** There is room for the relocations of every instruction. */
  lemma RelocationRoom(P: Program, c: nat, i: nat)
    requires Delivered(P) && c < |P.methods| && MethodIn(P, P.methods[c]) && i < P.methods[c].length
    ensures |AllRelocations(P, c)| + |MethodRelocations(P, c, i)| + |Relocations(P, c, i)| <= ReferenceTotal(P)
  {
    hide Need; hide AllRelocations; hide MethodRelocations; hide Relocations; hide CaseNeed; hide Supported; hide SwitchesBefore;
    hide ReferenceNeed; hide ReferenceTotal; hide ReferenceAsks;
    AllRelocationsCounted(P, c);
    MethodRelocationsCounted(P, c, i);
    RelocationCounted(P, c, i);
    CutMethod(P, c);
    ReferenceNext(P, P.methods[c].first + i);
    ReferenceRises(P, P.methods[c].first + i + 1);
    RelocationsFillTable(P);
  }

  lemma RegroupNotes(a: seq<Relocation>, b: seq<Relocation>, c: seq<Relocation>)
    ensures a + b + c == a + (b + c) && |a + b| == |a| + |b|
  {
  }

  lemma ReferenceRises(P: Program, g: nat)
    requires g <= |P.codes|
    ensures ReferenceNeed(P, g) <= ReferenceNeed(P, |P.codes|)
  {
    hide Need;
    NeedRises(P, g, |P.codes|, Inits);
    NeedRises(P, g, |P.codes|, ThisMethods);
    NeedRises(P, g, |P.codes|, SuperMethods);
    NeedRises(P, g, |P.codes|, Integers);
    NeedRises(P, g, |P.codes|, Floats);
    NeedRises(P, g, |P.codes|, Longs);
    NeedRises(P, g, |P.codes|, Doubles);
    NeedRises(P, g, |P.codes|, Strings);
    NeedRises(P, g, |P.codes|, Loadables);
    NeedRises(P, g, |P.codes|, Classes);
    NeedRises(P, g, |P.codes|, Fields);
    NeedRises(P, g, |P.codes|, Methods);
    NeedRises(P, g, |P.codes|, InterfaceMethods);
    NeedRises(P, g, |P.codes|, Dynamics);
  }

  lemma AllOperandsTaken(P: Program)
    requires Delivered(P)
    ensures forall k: Operand :: Need(P, |P.codes|, k) == Size(P, k)
    ensures SwitchesBefore(P.codes, |P.codes|) == |P.caseCounts| && CaseNeed(P, |P.codes|) == |P.caseValues|
  {
    hide Need; hide CaseNeed; hide SwitchesBefore; hide Supported; hide Cut;
  }

  class CodeEmitter {
    const P: Program
    const offsets: seq<nat>
    const output: array<byte>
    var position: nat
    var cursors: map<Operand, nat>
    var switchIndex: nat
    var caseIndex: nat
    const relocations: array<Relocation>
    var relocationIndex: nat

    constructor (program: Program, instructionOffsets: seq<nat>, total: nat, relocationCount: nat)
      ensures P == program && offsets == instructionOffsets && fresh(output) && output.Length == total
      ensures fresh(relocations) && relocations.Length == relocationCount
      ensures position == 0 && relocationIndex == 0 && Aligned(0)
    {
      P, offsets := program, instructionOffsets;
      output := new byte[total];
      relocations := new Relocation[relocationCount](_ => Relocation(0, 0, 0, InitThis));
      position, switchIndex, caseIndex, relocationIndex := 0, 0, 0, 0;
      cursors := AT_START;
      new;
      AllAtStart();
    }

    /** Every cursor stands behind the operands of the first g opcodes. */
    ghost predicate Aligned(g: nat)
      reads this`cursors, this`switchIndex, this`caseIndex
    {
      && g <= |P.codes|
      && (forall k: Operand :: k in cursors && cursors[k] == Need(P, g, k))
      && switchIndex == SwitchesBefore(P.codes, g) && caseIndex == CaseNeed(P, g)
    }

    function Written(): seq<byte>
      requires position <= output.Length
      reads this`position, output
    {
      output[..position]
    }

    /** The relocations noted so far. */
    function Noted(): seq<Relocation>
      requires relocationIndex <= relocations.Length
      reads this`relocationIndex, relocations
    {
      relocations[..relocationIndex]
    }

    method Put(b: byte)
      requires position < output.Length
      modifies this`position, output
      ensures position == old(position) + 1 && Written() == old(Written()) + [b]
    {
      output[position] := b;
      position := position + 1;
    }

    method Put2(v: int)
      requires position + 2 <= output.Length
      modifies this`position, output
      ensures position == old(position) + 2 && Written() == old(Written()) + BigEndian(v, 2)
    {
      hide ByteOf;
      Put(ByteOf(v, 1));
      Put(ByteOf(v, 0));
      assert BigEndian(v, 2) == [ByteOf(v, 1)] + [ByteOf(v, 0)];
    }

    method Put4(v: int)
      requires position + 4 <= output.Length
      modifies this`position, output
      ensures position == old(position) + 4 && Written() == old(Written()) + BigEndian(v, 4)
    {
      hide ByteOf;
      ghost var before := Written();
      Put(ByteOf(v, 3));
      Put(ByteOf(v, 2));
      Put(ByteOf(v, 1));
      Put(ByteOf(v, 0));
      assert BigEndian(v, 4) == [ByteOf(v, 3), ByteOf(v, 2), ByteOf(v, 1), ByteOf(v, 0)];
      assert Written() == before + [ByteOf(v, 3), ByteOf(v, 2), ByteOf(v, 1), ByteOf(v, 0)];
    }

    method Take(k: Operand) returns (v: int)
      requires k in cursors && k in P.operands && cursors[k] < |P.operands[k]|
      modifies this`cursors
      ensures cursors == old(cursors)[k := old(cursors[k]) + 1] && v == P.operands[k][old(cursors[k])]
    {
      v := P.operands[k][cursors[k]];
      cursors := cursors[k := cursors[k] + 1];
    }

    /** The Java opcode or opcodes. */
    method EmitOpcode(op: byte)
      requires position + |OpcodeBytes(op)| <= output.Length
      modifies this`position, output
      ensures position == old(position) + |OpcodeBytes(op)| && Written() == old(Written()) + OpcodeBytes(op)
    {
      ghost var before := Written();
      var combinedThis := 213 <= op <= 215;
      var combinedSuper := 227 <= op <= 229;
      if combinedThis || combinedSuper {
        Put(42);
      }
      if 206 <= op <= 208 || combinedThis {
        Put(182 + if combinedThis then op - 213 else op - 206);
      } else if 220 <= op <= 222 || combinedSuper {
        Put(182 + if combinedSuper then op - 227 else op - 220);
      } else if op == 233 || op == 234 || op == 235 {
        Put(18);
      } else if op == 236 || op == 237 || op == 238 {
        Put(19);
      } else if op == 239 {
        Put(20);
      } else if op == 240 {
        Put(18);
      } else if op == 241 {
        Put(19);
      } else if op == 242 {
        Put(183);
      } else if op == 243 {
        Put(184);
      } else {
        Put(if op == 230 || op == 231 then 183 else op);
      }
      assert Written() == before + OpcodeBytes(op);
    }

    /** One displacement, in two or four bytes. */
    method EmitJump(m: Method, i: nat, distance: int, width: nat) returns (status: Status)
      requires MethodIn(P, m) && i < m.length && (width == 2 || width == 4)
      requires |offsets| == |P.codes| && forall j: nat :: j < m.length ==> offsets[m.first + j] == Offset(P, m.first, j)
      requires position + width <= output.Length
      modifies this`position, output
      ensures position <= output.Length
      ensures status == Success <==> Jump(P, m, i, distance, width).Code?
      ensures match Jump(P, m, i, distance, width)
              case Code(bytes) => status == Success && position == old(position) + width && Written() == old(Written()) + bytes
              case Refused(s) => status == s && position == old(position)
    {
      hide Offset; hide BigEndian;
      var target := i + distance;
      if target < 0 || target >= m.length {
        return InvalidNetworkResponse;
      }
      var source: int := offsets[m.first + i];
      var displacement := offsets[m.first + target] as int - source;
      if width == 4 {
        if displacement < -0x8000_0000 || displacement > 0x7fff_ffff {
          return IntegerOverflow;
        }
        Put4(displacement);
      } else {
        if displacement < -32768 || displacement > 32767 {
          return IntegerOverflow;
        }
        Put2(displacement);
      }
      status := Success;
    }

    /** Zero bytes up to the operands of a switch. */
    method EmitPadding(padding: nat)
      requires position + padding <= output.Length
      modifies this`position, output
      ensures position == old(position) + padding && Written() == old(Written()) + Zeros(padding)
    {
      for pad := 0 to padding
        invariant position == old(position) + pad && position <= output.Length
        invariant Written() == old(Written()) + Zeros(pad)
      {
        Put(0);
        assert Zeros(pad + 1) == Zeros(pad) + [0];
      }
    }

    /** The cases of a switch whose default label has been taken already. */
    method EmitCases(m: Method, i: nat, count: nat) returns (status: Status)
      requires Delivered(P) && MethodIn(P, m) && i < m.length && IsSwitch(P.codes[m.first + i])
      requires count == CaseCount(P, m.first + i)
      requires |offsets| == |P.codes| && forall j: nat :: j < m.length ==> offsets[m.first + j] == Offset(P, m.first, j)
      requires Labels in cursors && cursors[Labels] == Need(P, m.first + i, Labels) + 1
      requires P.codes[m.first + i] == 171 ==> caseIndex == CaseNeed(P, m.first + i)
      requires position + count * (if P.codes[m.first + i] == 170 then 4 else 8) <= output.Length
      modifies this`position, this`cursors, this`caseIndex, output
      ensures position <= output.Length
      ensures status == Success <==> Cases(P, m, i, count).Code?
      ensures match Cases(P, m, i, count)
              case Code(bytes) =>
                && status == Success && Written() == old(Written()) + bytes
                && cursors == old(cursors)[Labels := old(cursors[Labels]) + count]
                && caseIndex == old(caseIndex) + if P.codes[m.first + i] == 171 then count else 0
              case Refused(s) => status == s
    {
      hide Offset; hide BigEndian; hide Jump; hide Cases; hide Need; hide CaseNeed; hide CaseCount; hide Delivered;
      hide Written; hide Arg;
      hide CaseValue;
      var g := m.first + i;
      var opcode := P.codes[g];
      var unit := if opcode == 170 then 4 else 8;
      OperandsThere(P, g, Labels);
      CasesThere(P, g);
      NoCasesYet(P, m, i);
      assert Written() == old(Written()) + [];
      for n := 0 to count
        invariant position == old(position) + unit * n
        invariant Cases(P, m, i, n).Code? && Written() == old(Written()) + Cases(P, m, i, n).bytes
        invariant Labels in cursors && cursors == old(cursors)[Labels := old(cursors[Labels]) + n]
        invariant caseIndex == old(caseIndex) + if opcode == 171 then n else 0
      {
        CasesNext(P, m, i, n);
        ghost var before := Written();
        ghost var value := if opcode == 171 then BigEndian(CaseValue(P, g, n), 4) else [];
        if opcode == 171 {
          Put4(P.caseValues[caseIndex]);
          caseIndex := caseIndex + 1;
        }
        assert Written() == before + value by { EmptyTail(before); }
        var distance := Take(Labels);
        status := EmitJump(m, i, distance, 4);
        if status != Success {
          CasesRefuse(P, m, i, n + 1, count);
          return;
        }
        RegroupBytes(old(Written()), Cases(P, m, i, n).bytes, value, Jump(P, m, i, distance, 4).bytes);
      }
      status := Success;
    }

    /** The bounds of a table switch, or the number of cases of a lookup switch. */
    method EmitBounds(g: nat, count: nat) returns (status: Status)
      requires Delivered(P) && g < |P.codes| && IsSwitch(P.codes[g]) && count == CaseCount(P, g) && caseIndex == CaseNeed(P, g)
      requires position + (if P.codes[g] == 170 then 8 else 4) <= output.Length
      modifies this`position, this`caseIndex, output
      ensures position <= output.Length
      ensures status == Success <==> Bounds(P, g).Code?
      ensures match Bounds(P, g)
              case Code(bytes) =>
                && status == Success && Written() == old(Written()) + bytes
                && position == old(position) + (if P.codes[g] == 170 then 8 else 4)
                && caseIndex == old(caseIndex) + if P.codes[g] == 170 then 1 else 0
              case Refused(s) => status == s && position == old(position)
    {
      hide BigEndian; hide CaseNeed; hide CaseCount; hide Delivered; hide CaseValue; hide Written;
      CasesThere(P, g);
      if P.codes[g] == 170 {
        var low := P.caseValues[caseIndex];
        caseIndex := caseIndex + 1;
        var high := low + count - 1;
        if high < -0x8000_0000 || high > 0x7fff_ffff {
          return IntegerOverflow;
        }
        ghost var before := Written();
        Put4(low);
        Put4(high);
        Regroup3(before, BigEndian(low, 4), BigEndian(high, 4));
      } else {
        Put4(count);
      }
      status := Success;
    }

    /** Padding, default, bounds and cases of a switch. */
    method EmitSwitch(m: Method, i: nat) returns (status: Status)
      requires Delivered(P) && MethodIn(P, m) && i < m.length && IsSwitch(P.codes[m.first + i]) && Aligned(m.first + i)
      requires |offsets| == |P.codes| && forall j: nat :: j < m.length ==> offsets[m.first + j] == Offset(P, m.first, j)
      requires position + SwitchLength(P.codes[m.first + i], Offset(P, m.first, i), CaseCount(P, m.first + i)) - 1 <= output.Length
      modifies this`position, this`cursors, this`caseIndex, this`switchIndex, output
      ensures position <= output.Length
      ensures status == Success <==> SwitchBytes(P, m, i).Code?
      ensures match SwitchBytes(P, m, i)
              case Code(bytes) => status == Success && Written() == old(Written()) + bytes && Aligned(m.first + i + 1)
              case Refused(s) => status == s
    {
      hide Offset; hide BigEndian; hide Jump; hide Cases; hide Need; hide CaseNeed; hide CaseCount; hide Delivered; hide Arg;
      hide CaseValue; hide SwitchesBefore; hide Written; hide Bounds;
      var g := m.first + i;
      var opcode := P.codes[g];
      NextCount(P, g);
      AlignedSwitch(P, g);
      OperandsThere(P, g, Labels);
      CasesThere(P, g);
      var count := P.caseCounts[switchIndex];
      switchIndex := switchIndex + 1;
      ghost var before := Written();
      var padding := Padding(offsets[g]);
      EmitPadding(padding);
      var distance := Take(Labels);
      status := EmitJump(m, i, distance, 4);
      if status != Success {
        return;
      }
      ghost var jump := Jump(P, m, i, distance, 4).bytes;
      status := EmitBounds(g, count);
      if status != Success {
        return;
      }
      ghost var bounds := Bounds(P, g).bytes;
      status := EmitCases(m, i, count);
      SwitchRegroup(before, Zeros(padding), jump, bounds, if Cases(P, m, i, count).Code? then Cases(P, m, i, count).bytes else []);
    }

    /** What every operand writer needs: the opcode is written, its operands are next. */
    ghost predicate AtOperands(c: nat, i: nat, codeOffset: nat)
      reads this
    {
      && Delivered(P) && c < |P.methods| && MethodIn(P, P.methods[c]) && i < P.methods[c].length
      && Aligned(P.methods[c].first + i)
      && position == codeOffset + Offset(P, P.methods[c].first, i) + |OpcodeBytes(P.codes[P.methods[c].first + i])|
    }

    method EmitByteOperand(c: nat, i: nat, ghost codeOffset: nat)
      requires AtOperands(c, i, codeOffset) && IsByte(P.codes[P.methods[c].first + i]) && position < output.Length
      modifies this`position, this`cursors, output
      ensures position <= output.Length && Aligned(P.methods[c].first + i + 1)
      ensures OperandBytes(P, P.methods[c], i).Code? && Written() == old(Written()) + OperandBytes(P, P.methods[c], i).bytes
    {
      hide Offset; hide Need; hide CaseNeed; hide SwitchesBefore; hide Delivered; hide CaseCount; hide Arg; hide ByteOf; hide SwitchBytes;
      var g := P.methods[c].first + i;
      OperandsThere(P, g, Bytes);
      var v := Take(Bytes);
      Put(ByteOf(v, 0));
      OneByte(v);
      AlignOne(P, g, old(cursors), cursors, Bytes);
    }

    method EmitShortOperand(c: nat, i: nat, ghost codeOffset: nat)
      requires AtOperands(c, i, codeOffset) && IsShort(P.codes[P.methods[c].first + i]) && position + 2 <= output.Length
      modifies this`position, this`cursors, output
      ensures position <= output.Length && Aligned(P.methods[c].first + i + 1)
      ensures OperandBytes(P, P.methods[c], i).Code? && Written() == old(Written()) + OperandBytes(P, P.methods[c], i).bytes
    {
      hide Offset; hide Need; hide CaseNeed; hide SwitchesBefore; hide Delivered; hide CaseCount; hide Arg; hide ByteOf; hide SwitchBytes;
      hide BigEndian; hide Written;
      var g := P.methods[c].first + i;
      OperandsThere(P, g, Shorts);
      var v := Take(Shorts);
      Put2(v);
      AlignOne(P, g, old(cursors), cursors, Shorts);
    }

    /** A local variable's number, and for an increment its amount. */
    method EmitLocal(c: nat, i: nat, ghost codeOffset: nat) returns (status: Status)
      requires AtOperands(c, i, codeOffset) && position + One(IsIncrement(P.codes[P.methods[c].first + i])) < output.Length
      requires IsLocal(P.codes[P.methods[c].first + i]) || IsIncrement(P.codes[P.methods[c].first + i])
      modifies this`position, this`cursors, output
      ensures position <= output.Length
      ensures status == Success <==> OperandBytes(P, P.methods[c], i).Code?
      ensures match OperandBytes(P, P.methods[c], i)
              case Code(bytes) => Written() == old(Written()) + bytes && Aligned(P.methods[c].first + i + 1)
              case Refused(s) => status == s
    {
      hide Offset; hide Need; hide CaseNeed; hide SwitchesBefore; hide Delivered; hide CaseCount; hide Arg; hide ByteOf; hide SwitchBytes;
      hide Written; hide BigEndian;
      var g := P.methods[c].first + i;
      OperandsThere(P, g, Locals);
      OperandsThere(P, g, Bytes);
      if P.operands[Locals][cursors[Locals]] > 0xff {
        return InvalidNetworkResponse;
      }
      var v := Take(Locals);
      Put(ByteOf(v, 0));
      OneByte(v);
      if P.codes[g] == 132 {
        ghost var before, between := old(Written()), cursors;
        var amount := Take(Bytes);
        Put(ByteOf(amount, 0));
        OneByte(amount);
        Regroup3(before, BigEndian(v, 1), BigEndian(amount, 1));
        AlignTwo(P, g, old(cursors), cursors);
      } else {
        AlignOne(P, g, old(cursors), cursors, Locals);
      }
      status := Success;
    }

    /** An index to be filled in later: zero bytes now, and a note where and which. */
    method EmitRelocation(c: nat, i: nat, codeOffset: nat, band: Operand, kind: RelocationKind, width: nat)
      requires AtOperands(c, i, codeOffset) && position + width <= output.Length && (width == 1 || width == 2)
      requires relocationIndex < relocations.Length
      requires Takes(P.codes[P.methods[c].first + i], band) == 1
      modifies this`position, this`cursors, this`relocationIndex, output, relocations
      ensures position == old(position) + width && Written() == old(Written()) + Zeros(width)
      ensures cursors == old(cursors)[band := old(cursors[band]) + 1]
      ensures relocationIndex <= relocations.Length && Noted() == old(Noted())
                + [Relocation(c, old(position) - codeOffset, Arg(P, P.methods[c].first + i, band, 0), kind, width)]
    {
      hide Offset; hide Need; hide CaseNeed; hide SwitchesBefore; hide Delivered; hide CaseCount; hide Arg; hide Takes; hide OpcodeBytes;
      var g := P.methods[c].first + i;
      OperandsThere(P, g, band);
      var at := position - codeOffset;
      var reference := Take(band);
      relocations[relocationIndex] := Relocation(c, at, reference, kind, width);
      relocationIndex := relocationIndex + 1;
      Put(0);
      assert Zeros(1) == [0];
      if width == 2 {
        Put(0);
        assert Zeros(2) == [0] + [0];
      }
    }

    /** The three self-relative method forms. */
    method EmitOwnMethod(c: nat, i: nat, codeOffset: nat)
      requires AtOperands(c, i, codeOffset) && position + 2 <= output.Length
      requires var op := P.codes[P.methods[c].first + i]; IsInit(op) || IsThisMethod(op) || IsSuperMethod(op)
      requires relocationIndex < relocations.Length
      modifies this`position, this`cursors, this`relocationIndex, output, relocations
      ensures position <= output.Length && Aligned(P.methods[c].first + i + 1)
      ensures OperandBytes(P, P.methods[c], i).Code? && Written() == old(Written()) + OperandBytes(P, P.methods[c], i).bytes
      ensures relocationIndex <= relocations.Length && Noted() == old(Noted()) + Relocations(P, c, i)
    {
      hide Offset; hide Need; hide CaseNeed; hide SwitchesBefore; hide Delivered; hide CaseCount; hide Arg;
      hide OpcodeBytes; hide SwitchBytes;
      hide Written; hide Jump;
      var g := P.methods[c].first + i;
      var op := P.codes[g];
      if IsInit(op) {
        EmitRelocation(c, i, codeOffset, Inits, if op == 230 then InitThis else InitSuper, 2);
        AlignOne(P, g, old(cursors), cursors, Inits);
      } else if IsThisMethod(op) {
        EmitRelocation(c, i, codeOffset, ThisMethods, MethodThis, 2);
        AlignOne(P, g, old(cursors), cursors, ThisMethods);
      } else {
        EmitRelocation(c, i, codeOffset, SuperMethods, MethodSuper, 2);
        AlignOne(P, g, old(cursors), cursors, SuperMethods);
      }
      assert Zeros(2) == [0, 0];
    }

    /** Constant-pool references, with the trailing bytes some of them have. */
    method EmitReference(c: nat, i: nat, codeOffset: nat)
      requires AtOperands(c, i, codeOffset) && IsReference(P.codes[P.methods[c].first + i])
      requires relocationIndex < relocations.Length
      requires var op := P.codes[P.methods[c].first + i];
        position + ReferenceWidth(op) + (if op == 185 || op == 186 then 2 else One(op == 197)) <= output.Length
      modifies this`position, this`cursors, this`relocationIndex, output, relocations
      ensures position <= output.Length && Aligned(P.methods[c].first + i + 1)
      ensures OperandBytes(P, P.methods[c], i).Code? && Written() == old(Written()) + OperandBytes(P, P.methods[c], i).bytes
      ensures relocationIndex <= relocations.Length && Noted() == old(Noted()) + Relocations(P, c, i)
    {
      hide Offset; hide Need; hide CaseNeed; hide SwitchesBefore; hide Delivered; hide CaseCount; hide Arg;
      hide OpcodeBytes; hide SwitchBytes;
      hide Written; hide Jump; hide ByteOf; hide BigEndian; hide OperandBytes; hide Relocations; hide Takes;
      hide ReferenceBand; hide ReferenceKindOf;
      var g := P.methods[c].first + i;
      var op := P.codes[g];
      ghost var before := Written();
      ReferenceTakes(op);
      EmitRelocation(c, i, codeOffset, ReferenceBand(op), ReferenceKindOf(ReferenceBand(op)), ReferenceWidth(op));
      ghost var tail: seq<byte> := [];
      if op == 185 || op == 186 {
        Put(0);
        Put(0);
        tail := [0, 0];
        assert before + Zeros(2) + [0] + [0] == before + Zeros(2) + [0, 0];
      }
      if op == 197 {
        OperandsThere(P, g, Bytes);
        var v := Take(Bytes);
        Put(ByteOf(v, 0));
        OneByte(v);
        tail := BigEndian(v, 1);
        AlignArray(P, g, old(cursors), cursors);
      } else {
        EmptyTail(before + Zeros(ReferenceWidth(op)));
        AlignOne(P, g, old(cursors), cursors, ReferenceBand(op)) by { ReferenceTakes(op); }
      }
      assert Written() == before + Zeros(ReferenceWidth(op)) + tail;
      Regroup3(before, Zeros(ReferenceWidth(op)), tail);
      ReferenceBytes(P, c, i, tail);
    }

    method EmitBranch(c: nat, i: nat, ghost codeOffset: nat) returns (status: Status)
      requires AtOperands(c, i, codeOffset) && IsLabel(P.codes[P.methods[c].first + i])
      requires |offsets| == |P.codes|
      requires var m := P.methods[c]; forall j: nat :: j < m.length ==> offsets[m.first + j] == Offset(P, m.first, j)
      requires var op := P.codes[P.methods[c].first + i]; position + (if op == 200 || op == 201 then 4 else 2) <= output.Length
      modifies this`position, this`cursors, output
      ensures position <= output.Length
      ensures status == Success <==> OperandBytes(P, P.methods[c], i).Code?
      ensures match OperandBytes(P, P.methods[c], i)
              case Code(bytes) => Written() == old(Written()) + bytes && Aligned(P.methods[c].first + i + 1)
              case Refused(s) => status == s
    {
      hide Offset; hide Need; hide CaseNeed; hide SwitchesBefore; hide Delivered; hide CaseCount; hide Arg; hide SwitchBytes; hide Jump;
      hide Written; hide OpcodeBytes; hide BigEndian;
      var g := P.methods[c].first + i;
      OperandsThere(P, g, Labels);
      var distance := Take(Labels);
      AlignOne(P, g, old(cursors), cursors, Labels);
      status := EmitJump(P.methods[c], i, distance, if P.codes[g] == 200 || P.codes[g] == 201 then 4 else 2);
    }

    /** The second pass recorded where the instructions of method c begin. */
    ghost predicate OffsetsKnown(c: nat) {
      && c < |P.methods| && MethodIn(P, P.methods[c]) && |offsets| == |P.codes|
      && var m := P.methods[c]; forall j: nat :: j < m.length ==> offsets[m.first + j] == Offset(P, m.first, j)
    }

    ghost predicate RoomFor(c: nat, i: nat, codeOffset: nat)
      requires c < |P.methods| && MethodIn(P, P.methods[c]) && i < P.methods[c].length
    {
      var g := P.methods[c].first + i;
      codeOffset + Offset(P, P.methods[c].first, i)
        + Length(P.codes[g], Offset(P, P.methods[c].first, i), CaseCount(P, g)) <= output.Length
    }

    /** The operands of one instruction, by the third pass's own tests. */
    method EmitOperands(c: nat, i: nat, codeOffset: nat) returns (status: Status)
      requires AtOperands(c, i, codeOffset) && Supported(P.codes[P.methods[c].first + i])
      requires relocationIndex + |Relocations(P, c, i)| <= relocations.Length
      requires OffsetsKnown(c) && RoomFor(c, i, codeOffset)
      modifies this`position, this`cursors, this`caseIndex, this`switchIndex, this`relocationIndex, output, relocations
      ensures position <= output.Length
      ensures status == Success <==> OperandBytes(P, P.methods[c], i).Code?
      ensures match OperandBytes(P, P.methods[c], i)
              case Code(bytes) =>
                && Written() == old(Written()) + bytes && Aligned(P.methods[c].first + i + 1)
                && relocationIndex <= relocations.Length && Noted() == old(Noted()) + Relocations(P, c, i)
              case Refused(s) => status == s
    {
      hide Offset; hide Need; hide CaseNeed; hide SwitchesBefore; hide Delivered; hide CaseCount; hide Arg; hide SwitchBytes; hide Jump;
      hide Written; hide OpcodeBytes; hide BigEndian; hide OperandBytes; hide Relocations; hide Length; hide SwitchLength; hide Supported;
      hide Aligned; hide Noted; hide Delivered;
      var m := P.methods[c];
      var opcode := P.codes[m.first + i];
      OperandRoom(P, m, i);
      status := Success;
      if opcode == 16 || opcode == 188 {
        EmitByteOperand(c, i, codeOffset);
      } else if opcode == 17 {
        EmitShortOperand(c, i, codeOffset);
      } else if 21 <= opcode <= 25 || 54 <= opcode <= 58 || opcode == 169 || opcode == 132 {
        status := EmitLocal(c, i, codeOffset);
      } else if opcode == 170 || opcode == 171 {
        SwitchIs(P, m, i);
        status := EmitSwitch(m, i);
      } else if opcode == 230 || opcode == 231 || 206 <= opcode <= 208 || 213 <= opcode <= 215
                || 220 <= opcode <= 222 || 227 <= opcode <= 229 {
        OneNoted(P, c, i);
        EmitOwnMethod(c, i, codeOffset);
      } else if IsReference(opcode) {
        OneNoted(P, c, i);
        EmitReference(c, i, codeOffset);
      } else if 153 <= opcode <= 168 || opcode == 198 || opcode == 199 || opcode == 200 || opcode == 201 {
        status := EmitBranch(c, i, codeOffset);
      } else {
        PlainIs(P, m, i);
        AlignedPlain(m.first + i);
        EmptyTail(Written());
      }
      NoRelocation(P, c, i);
    }

    /** One whole instruction. */
    method EmitInstruction(c: nat, i: nat, codeOffset: nat) returns (status: Status)
      requires Delivered(P) && c < |P.methods| && MethodIn(P, P.methods[c]) && i < P.methods[c].length
      requires Aligned(P.methods[c].first + i) && position == codeOffset + Offset(P, P.methods[c].first, i)
      requires |offsets| == |P.codes|
      requires var m := P.methods[c]; forall j: nat :: j < m.length ==> offsets[m.first + j] == Offset(P, m.first, j)
      requires codeOffset + Offset(P, P.methods[c].first, i + 1) <= output.Length
      requires relocationIndex + |Relocations(P, c, i)| <= relocations.Length
      modifies this`position, this`cursors, this`caseIndex, this`switchIndex, this`relocationIndex, output, relocations
      ensures position <= output.Length
      ensures status == Success <==> Instruction(P, P.methods[c], i).Code?
      ensures match Instruction(P, P.methods[c], i)
              case Code(bytes) =>
                && Written() == old(Written()) + bytes && Aligned(P.methods[c].first + i + 1)
                && position == codeOffset + Offset(P, P.methods[c].first, i + 1)
                && relocationIndex <= relocations.Length && Noted() == old(Noted()) + Relocations(P, c, i)
              case Refused(s) => status == s
    {
      hide Offset; hide Need; hide CaseNeed; hide SwitchesBefore; hide CaseCount; hide OpcodeBytes; hide OperandBytes; hide Relocations;
      hide Length; hide Supported; hide Aligned; hide Cut;
      var m := P.methods[c];
      var g := m.first + i;
      OffsetNext(P, m.first, i);
      assert Supported(P.codes[g]);
      OperandRoom(P, m, i);
      ghost var before := Written();
      EmitOpcode(P.codes[g]);
      status := EmitOperands(c, i, codeOffset);
      if status == Success {
        Regroup3(before, OpcodeBytes(P.codes[g]), OperandBytes(P, m, i).bytes);
        InstructionLength(P, m, i);
      }
    }

    /** The code of one method behind that of the earlier ones. */
    method EmitMethod(c: nat, codeOffset: nat) returns (status: Status)
      requires Delivered(P) && c < |P.methods| && MethodOk(P, c) && Cut(P) && codeOffset == CodeOffset(P, c)
      requires position == codeOffset <= output.Length == CodeOffset(P, |P.methods|) && Aligned(P.methods[c].first)
      requires |offsets| == |P.codes|
      requires var m := P.methods[c]; forall j: nat :: j < m.length ==> offsets[m.first + j] == Offset(P, m.first, j)
      requires relocationIndex <= relocations.Length == ReferenceTotal(P) && Noted() == AllRelocations(P, c)
      modifies this`position, this`cursors, this`caseIndex, this`switchIndex, this`relocationIndex, output, relocations
      ensures position <= output.Length
      ensures status == Success <==> MethodCode(P, P.methods[c], P.methods[c].length).Code?
      ensures match MethodCode(P, P.methods[c], P.methods[c].length)
              case Code(bytes) =>
                && Written() == old(Written()) + bytes && Aligned(P.methods[c].first + P.methods[c].length)
                && position == codeOffset + CodeLength(P, P.methods[c])
                && relocationIndex <= relocations.Length
                && Noted() == AllRelocations(P, c) + MethodRelocations(P, c, P.methods[c].length)
              case Refused(s) => status == s
    {
      hide Offset; hide Delivered; hide Cut; hide Aligned; hide Instruction; hide Relocations; hide MethodCode;
      hide CodeOffset; hide AllRelocations; hide MethodRelocations; hide ReferenceTotal; hide Noted; hide Written;
      var m := P.methods[c];
      ghost var done, noted := Written(), Noted();
      MethodStart(P, c);
      EmptyTail(done);
      NotedSize();
      for i := 0 to m.length
        invariant position == codeOffset + Offset(P, m.first, i) <= output.Length
        invariant MethodCode(P, m, i).Code? && Written() == done + MethodCode(P, m, i).bytes
        invariant relocationIndex <= relocations.Length && Noted() == AllRelocations(P, c) + MethodRelocations(P, c, i)
        invariant Aligned(m.first + i)
      {
        MethodRoom(P, c, i);
        MethodNext(P, c, i);
        RelocationRoom(P, c, i);
        NotedSize();
        status := EmitInstruction(c, i, codeOffset);
        if status != Success {
          MethodRefuses(P, m, i + 1, m.length);
          return;
        }
        Regroup3(done, MethodCode(P, m, i).bytes, Instruction(P, m, i).bytes);
        RegroupNotes(AllRelocations(P, c), MethodRelocations(P, c, i), Relocations(P, c, i));
      }
      status := Success;
    }

    lemma NotedSize()
      requires relocationIndex <= relocations.Length
      ensures |Noted()| == relocationIndex
    {
    }

    /** The code of all methods, one behind the other. */
    method EmitAll(codeOffsets: seq<nat>, ghost codeLengths: seq<nat>) returns (status: Status)
      requires Delivered(P) && Aligned(0) && position == 0 && relocationIndex == 0 && relocations.Length == ReferenceTotal(P)
      requires LaidOut(P, offsets, codeOffsets, codeLengths, |P.methods|) && output.Length == CodeOffset(P, |P.methods|)
      modifies this`position, this`cursors, this`caseIndex, this`switchIndex, this`relocationIndex, output, relocations
      ensures status == Success <==> AllCode(P, |P.methods|).Code?
      ensures match AllCode(P, |P.methods|)
              case Code(bytes) => output[..] == bytes && relocations[..] == AllRelocations(P, |P.methods|) && Aligned(|P.codes|)
              case Refused(s) => status == s
    {
      hide Offset; hide Delivered; hide Cut; hide Aligned; hide AllCode; hide MethodCode; hide CodeOffset; hide AllRelocations;
      hide MethodRelocations; hide ReferenceTotal; hide Complete;
      CutOf(P);
      NothingEmitted(P);
      for c := 0 to |P.methods|
        invariant position == CodeOffset(P, c) <= output.Length
        invariant AllCode(P, c).Code? && Written() == AllCode(P, c).bytes
        invariant relocationIndex <= relocations.Length && Noted() == AllRelocations(P, c)
        invariant Aligned(FirstOf(P, c))
      {
        CutMethod(P, c);
        assert MethodLaidOut(P, offsets, codeOffsets, codeLengths, c);
        MethodStart(P, c);
        status := EmitMethod(c, codeOffsets[c]);
        AllNext(P, c);
        if status != Success {
          AllRefuses(P, c, |P.methods|);
          return;
        }
      }
      CutLength(P);
      FinalCounts();
      assert Written() == output[..] && Noted() == relocations[..];
      status := if Complete() then Success else InvalidNetworkResponse;
    }

    /** The final consistency check cannot fail. */
    lemma FinalCounts()
      requires Delivered(P) && Aligned(|P.codes|) && position == output.Length
      requires relocationIndex <= relocations.Length == ReferenceTotal(P) && Noted() == AllRelocations(P, |P.methods|)
      ensures relocationIndex == relocations.Length && Complete()
    {
      hide Delivered; hide AllRelocations; hide ReferenceTotal; hide Need;
      RelocationsFillTable(P);
      AllOperandsTaken(P);
    }

    /** The final consistency check: every count has been reached. */
    predicate Complete()
      reads this`position, this`cursors, this`switchIndex, this`caseIndex, this`relocationIndex
    {
      && (forall k: Operand :: k in cursors && cursors[k] == Size(P, k))
      && switchIndex == |P.caseCounts| && caseIndex == |P.caseValues|
      && relocationIndex == relocations.Length && position == output.Length
    }

    lemma AlignedPlain(g: nat)
      requires Aligned(g) && g < |P.codes| && TakesNothing(P.codes[g])
      ensures Aligned(g + 1)
    {
      hide Need; hide CaseNeed; hide SwitchesBefore; hide TakesNothing;
      TakesNone(P.codes[g]);
      AlignedAfter(P, g);
    }
  }

  lemma NothingEmitted(P: Program)
    requires Cut(P)
    ensures CodeOffset(P, 0) == 0 && AllCode(P, 0) == Code([]) && AllRelocations(P, 0) == []
  {
  }

  lemma CutOf(P: Program)
    requires Delivered(P)
    ensures Cut(P)
  {
  }

  lemma CutLength(P: Program)
    requires Cut(P)
    ensures FirstOf(P, |P.methods|) == |P.codes|
  {
  }

  lemma MethodStart(P: Program, c: nat)
    requires Cut(P) && c < |P.methods| && MethodOk(P, c)
    ensures Offset(P, P.methods[c].first, 0) == 0 && MethodCode(P, P.methods[c], 0) == Code([]) && MethodRelocations(P, c, 0) == []
    ensures FirstOf(P, c) == P.methods[c].first
  {
  }

  lemma {:induction false} CodeOffsetsGrow(P: Program, a: nat, b: nat)
    requires Cut(P) && a <= b <= |P.methods|
    ensures CodeOffset(P, a) <= CodeOffset(P, b)
    decreases b
  {
    hide Cut; hide Offset;
    if a < b {
      CutMethod(P, b - 1);
      CodeOffsetsGrow(P, a, b - 1);
    }
  }

  lemma MethodRoom(P: Program, c: nat, i: nat)
    requires Cut(P) && c < |P.methods| && MethodOk(P, c) && i < P.methods[c].length
    ensures CodeOffset(P, c) + Offset(P, P.methods[c].first, i + 1) <= CodeOffset(P, c + 1) <= CodeOffset(P, |P.methods|)
  {
    hide Cut; hide Offset;
    OffsetsGrow(P, P.methods[c].first, i + 1, P.methods[c].length);
    CodeOffsetsGrow(P, c + 1, |P.methods|);
  }

  lemma MethodNext(P: Program, c: nat, i: nat)
    requires c < |P.methods| && MethodIn(P, P.methods[c]) && i < P.methods[c].length
    ensures MethodCode(P, P.methods[c], i + 1) == Then(MethodCode(P, P.methods[c], i), Instruction(P, P.methods[c], i))
    ensures MethodRelocations(P, c, i + 1) == MethodRelocations(P, c, i) + Relocations(P, c, i)
    ensures forall a: seq<Relocation> :: (a + MethodRelocations(P, c, i)) + Relocations(P, c, i) == a + MethodRelocations(P, c, i + 1)
  {
    hide Instruction; hide Relocations;
    forall a: seq<Relocation>
      ensures (a + MethodRelocations(P, c, i)) + Relocations(P, c, i) == a + MethodRelocations(P, c, i + 1)
    {
      assert MethodRelocations(P, c, i + 1) == MethodRelocations(P, c, i) + Relocations(P, c, i);
    }
  }

  lemma AllNext(P: Program, c: nat)
    requires Cut(P) && c < |P.methods| && MethodOk(P, c)
    ensures CodeOffset(P, c + 1) == CodeOffset(P, c) + Offset(P, P.methods[c].first, P.methods[c].length)
    ensures AllCode(P, c + 1) == Then(AllCode(P, c), MethodCode(P, P.methods[c], P.methods[c].length))
    ensures AllRelocations(P, c + 1) == AllRelocations(P, c) + MethodRelocations(P, c, P.methods[c].length)
    ensures FirstOf(P, c + 1) == P.methods[c].first + P.methods[c].length
  {
    hide Cut; hide Offset; hide MethodCode; hide MethodRelocations;
  }

  lemma {:induction false} MethodRefuses(P: Program, m: Method, i: nat, n: nat)
    requires MethodIn(P, m) && i <= n <= m.length && MethodCode(P, m, i).Refused?
    ensures MethodCode(P, m, n) == MethodCode(P, m, i)
    decreases n
  {
    hide Instruction;
    if i < n { MethodRefuses(P, m, i, n - 1); }
  }

  lemma {:induction false} AllRefuses(P: Program, c: nat, n: nat)
    requires Cut(P) && c < n <= |P.methods| && AllCode(P, c).Code? && MethodOk(P, c)
    requires MethodCode(P, P.methods[c], P.methods[c].length).Refused?
    ensures AllCode(P, n) == MethodCode(P, P.methods[c], P.methods[c].length)
    decreases n
  {
    hide Cut; hide MethodCode;
    CutMethod(P, n - 1);
    if c < n - 1 { AllRefuses(P, c, n - 1); }
  }

  /** An opcode that takes nothing. */
  lemma TakesNone(op: byte)
    requires TakesNothing(op)
    ensures !IsSwitch(op) && forall k: Operand :: Takes(op, k) == 0
  {
  }

  lemma PlainIs(P: Program, m: Method, i: nat)
    requires MethodIn(P, m) && i < m.length && TakesNothing(P.codes[m.first + i])
    ensures OperandBytes(P, m, i) == Code([])
  {
    hide Offset; hide Arg;
  }

  lemma SwitchIs(P: Program, m: Method, i: nat)
    requires MethodIn(P, m) && i < m.length && IsSwitch(P.codes[m.first + i])
    ensures OperandBytes(P, m, i) == SwitchBytes(P, m, i)
    ensures Length(P.codes[m.first + i], Offset(P, m.first, i), CaseCount(P, m.first + i))
         == SwitchLength(P.codes[m.first + i], Offset(P, m.first, i), CaseCount(P, m.first + i))
    ensures |OpcodeBytes(P.codes[m.first + i])| == 1
  {
    hide Offset; hide Arg; hide CaseCount; hide SwitchLength; hide SwitchBytes;
  }

  lemma NoRelocation(P: Program, c: nat, i: nat)
    requires c < |P.methods| && MethodIn(P, P.methods[c]) && i < P.methods[c].length
    ensures var op := P.codes[P.methods[c].first + i];
      !IsInit(op) && !IsThisMethod(op) && !IsSuperMethod(op) && !IsReference(op) ==> Relocations(P, c, i) == []
  {
    hide Offset; hide Arg; hide OpcodeBytes;
  }

  /** The planned length leaves room for the operands behind the opcode. */
  lemma OperandRoom(P: Program, m: Method, i: nat)
    requires MethodIn(P, m) && i < m.length && Supported(P.codes[m.first + i])
    ensures var op := P.codes[m.first + i];
      var room := Length(op, Offset(P, m.first, i), CaseCount(P, m.first + i)) - |OpcodeBytes(op)|;
      && room >= 0
      && (IsByte(op) ==> room >= 1) && (IsShort(op) ==> room >= 2)
      && (IsLocal(op) || IsIncrement(op) ==> room > One(IsIncrement(op)))
      && (IsInit(op) || IsThisMethod(op) || IsSuperMethod(op) ==> room >= 2)
      && (IsReference(op) ==> room >= ReferenceWidth(op) + if op == 185 || op == 186 then 2 else One(op == 197))
      && (IsLabel(op) ==> room >= if op == 200 || op == 201 then 4 else 2)
  {
    hide Offset; hide CaseCount; hide SwitchLength;
  }

  lemma OneByte(v: int)
    ensures BigEndian(v, 1) == [ByteOf(v, 0)]
  {
    hide ByteOf;
  }

  lemma {:induction false} AlignedAfter(P: Program, g: nat)
    requires g < |P.codes| && !IsSwitch(P.codes[g])
    ensures forall k: Operand :: Need(P, g + 1, k) == Need(P, g, k) + Takes(P.codes[g], k)
    ensures SwitchesBefore(P.codes, g + 1) == SwitchesBefore(P.codes, g)
    ensures CaseNeed(P, g + 1) == CaseNeed(P, g)
  {
    hide Asks; hide Takes;
    forall k: Operand
      ensures Need(P, g + 1, k) == Need(P, g, k) + Takes(P.codes[g], k)
    {
      TablesAgree(P.codes[g], k);
    }
  }

  /** Taking one operand from the one band the opcode takes from keeps all cursors aligned. */
  lemma AlignOne(P: Program, g: nat, before: map<Operand, nat>, after: map<Operand, nat>, band: Operand)
    requires g < |P.codes| && !IsSwitch(P.codes[g])
    requires forall k: Operand :: k in before && before[k] == Need(P, g, k)
    requires after == before[band := before[band] + 1]
    requires forall k: Operand :: Takes(P.codes[g], k) == One(k == band)
    ensures forall k: Operand :: k in after && after[k] == Need(P, g + 1, k)
    ensures SwitchesBefore(P.codes, g + 1) == SwitchesBefore(P.codes, g) && CaseNeed(P, g + 1) == CaseNeed(P, g)
  {
    hide Need; hide CaseNeed; hide SwitchesBefore; hide Takes;
    AlignedAfter(P, g);
  }

  lemma AlignTwo(P: Program, g: nat, before: map<Operand, nat>, after: map<Operand, nat>)
    requires g < |P.codes| && P.codes[g] == 132
    requires forall k: Operand :: k in before && before[k] == Need(P, g, k)
    requires after == before[Locals := before[Locals] + 1][Bytes := before[Bytes] + 1]
    ensures forall k: Operand :: k in after && after[k] == Need(P, g + 1, k)
    ensures SwitchesBefore(P.codes, g + 1) == SwitchesBefore(P.codes, g) && CaseNeed(P, g + 1) == CaseNeed(P, g)
  {
    hide Need; hide CaseNeed; hide SwitchesBefore;
    AlignedAfter(P, g);
  }

  lemma AlignArray(P: Program, g: nat, before: map<Operand, nat>, after: map<Operand, nat>)
    requires g < |P.codes| && P.codes[g] == 197
    requires forall k: Operand :: k in before && before[k] == Need(P, g, k)
    requires after == before[ReferenceBand(197) := before[ReferenceBand(197)] + 1][Bytes := before[Bytes] + 1]
    ensures forall k: Operand :: k in after && after[k] == Need(P, g + 1, k)
    ensures SwitchesBefore(P.codes, g + 1) == SwitchesBefore(P.codes, g) && CaseNeed(P, g + 1) == CaseNeed(P, g)
  {
    hide Need; hide CaseNeed; hide SwitchesBefore;
    AlignedAfter(P, g);
  }

  lemma ReferenceTakes(op: byte)
    requires IsReference(op)
    ensures !IsSwitch(op) && Takes(op, ReferenceBand(op)) == 1 && (op == 197 ==> ReferenceBand(op) != Bytes && Takes(op, Bytes) == 1)
    ensures op != 197 ==> forall k: Operand :: Takes(op, k) == One(k == ReferenceBand(op))
  {
    hide ReferenceBand;
    assert ReferenceBand(197) == Classes by { BandOfArray(); }
  }

  lemma BandOfArray()
    ensures ReferenceBand(197) == Classes
  {
  }

  lemma ReferenceBytes(P: Program, c: nat, i: nat, tail: seq<byte>)
    requires c < |P.methods| && MethodIn(P, P.methods[c]) && i < P.methods[c].length && IsReference(P.codes[P.methods[c].first + i])
    requires var op := P.codes[P.methods[c].first + i];
      tail == (if op == 185 || op == 186 then [0, 0]
               else if op == 197 then BigEndian(Arg(P, P.methods[c].first + i, Bytes, 0), 1) else [])
    ensures var op := P.codes[P.methods[c].first + i];
      && OperandBytes(P, P.methods[c], i) == Code(Zeros(ReferenceWidth(op)) + tail)
      && Relocations(P, c, i) ==
           [Relocation(c, Offset(P, P.methods[c].first, i) + |OpcodeBytes(op)|, Arg(P, P.methods[c].first + i, ReferenceBand(op), 0),
                       ReferenceKindOf(ReferenceBand(op)), ReferenceWidth(op))]
  {
    hide Offset; hide Arg; hide BigEndian; hide OpcodeBytes; hide ReferenceBand; hide ReferenceKindOf; hide SwitchBytes; hide Jump;
  }

  lemma Regroup3(a: seq<byte>, b: seq<byte>, c: seq<byte>)
    ensures a + b + c == a + (b + c)
  {
  }

  lemma EmptyTail(a: seq<byte>)
    ensures a == a + []
  {
  }

  lemma RegroupBytes(a: seq<byte>, b: seq<byte>, c: seq<byte>, d: seq<byte>)
    ensures a + b + c + d == a + ((b + c) + d)
  {
  }

  lemma SwitchRegroup(a: seq<byte>, b: seq<byte>, c: seq<byte>, d: seq<byte>, e: seq<byte>)
    ensures a + b + c + d + e == a + (((b + c) + d) + e)
  {
  }

  /** The case values of a switch are there. */
  lemma CasesThere(P: Program, g: nat)
    requires Delivered(P) && g < |P.codes|
    ensures CaseNeed(P, g) + CaseDemand(P, g) == CaseNeed(P, g + 1) <= |P.caseValues|
    ensures forall j: nat :: CaseNeed(P, g) + j < |P.caseValues| ==> P.caseValues[CaseNeed(P, g) + j] == CaseValue(P, g, j)
  {
    hide CaseDemand; hide Need; hide Supported; hide Cut;
    CaseNeedRises(P, g + 1, |P.codes|);
  }

  lemma NoCasesYet(P: Program, m: Method, i: nat)
    requires MethodIn(P, m) && i < m.length
    ensures Cases(P, m, i, 0) == Code([])
  {
  }

  lemma CasesNext(P: Program, m: Method, i: nat, n: nat)
    requires MethodIn(P, m) && i < m.length && Cases(P, m, i, n).Code?
    ensures var g := m.first + i;
      var jump := Jump(P, m, i, Arg(P, g, Labels, n + 1), 4);
      var value := if P.codes[g] == 171 then BigEndian(CaseValue(P, g, n), 4) else [];
      Cases(P, m, i, n + 1) == if jump.Code? then Code((Cases(P, m, i, n).bytes + value) + jump.bytes) else jump
  {
    hide Jump; hide Arg; hide CaseValue; hide BigEndian;
  }

  lemma {:induction false} CasesRefuse(P: Program, m: Method, i: nat, n: nat, count: nat)
    requires MethodIn(P, m) && i < m.length && n <= count && Cases(P, m, i, n).Refused?
    ensures Cases(P, m, i, count) == Cases(P, m, i, n)
    decreases count
  {
    hide Jump; hide Arg; hide CaseValue; hide BigEndian;
    if n < count { CasesRefuse(P, m, i, n, count - 1); }
  }

  /** Only the labels, the case values and the switches move over a switch. */
  lemma AlignedSwitch(P: Program, g: nat)
    requires Delivered(P) && g < |P.codes| && IsSwitch(P.codes[g])
    ensures forall k: Operand :: Need(P, g + 1, k) == Need(P, g, k) + if k == Labels then 1 + CaseCount(P, g) else 0
    ensures SwitchesBefore(P.codes, g + 1) == SwitchesBefore(P.codes, g) + 1
  {
    hide CaseCount; hide Delivered; hide Asks;
    forall k: Operand
      ensures Need(P, g + 1, k) == Need(P, g, k) + if k == Labels then 1 + CaseCount(P, g) else 0
    {
      SwitchAgrees(P.codes[g], k);
    }
  }
}
