// The three opcode tables agree: every instruction takes exactly the bytes that were planned for it,
// so each opcode stands at its recorded offset and each method fills exactly its own range.
module PackedFacts {
  import opened Common
  import opened PackedCode

  /** The bands as the readers deliver them: nothing unsupported, 32-bit values, no negative counts. */
  ghost predicate Delivered(P: Program) {
    && Cut(P)
    && (forall g: nat :: g < |P.codes| ==> Supported(P.codes[g]))
    && (forall k: nat :: k < |P.caseCounts| ==> P.caseCounts[k] < 0x8000_0000)
    && (forall k: nat :: k < |P.caseValues| ==> -0x8000_0000 <= P.caseValues[k] < 0x8000_0000)
    && |P.caseCounts| == SwitchesBefore(P.codes, |P.codes|)
    && |P.caseValues| == CaseNeed(P, |P.codes|)
    && (forall k: Operand :: k in P.operands && |P.operands[k]| == Need(P, |P.codes|, k))
  }

  lemma {:induction false} NeedRises(P: Program, a: nat, b: nat, k: Operand)
    requires a <= b <= |P.codes|
    ensures Need(P, a, k) <= Need(P, b, k)
    decreases b
  {
    hide Demand;
    if a < b { NeedRises(P, a, b - 1, k); }
  }

  lemma {:induction false} CaseNeedRises(P: Program, a: nat, b: nat)
    requires a <= b <= |P.codes|
    ensures CaseNeed(P, a) <= CaseNeed(P, b)
    decreases b
  {
    hide CaseDemand;
    if a < b { CaseNeedRises(P, a, b - 1); }
  }

  //
  // Relocations
  //

  /** Does the opcode leave a constant-pool index open? Counted over the fourteen bands that hold indexes. */
  function ReferenceAsks(op: byte): nat {
    Asks(op, Inits) + Asks(op, ThisMethods) + Asks(op, SuperMethods) + Asks(op, Integers) + Asks(op, Floats)
    + Asks(op, Longs) + Asks(op, Doubles) + Asks(op, Strings) + Asks(op, Loadables) + Asks(op, Classes) + Asks(op, Fields)
    + Asks(op, Methods) + Asks(op, InterfaceMethods) + Asks(op, Dynamics)
  }

  /** The values in those bands that the first g opcodes ask for. */
  function ReferenceNeed(P: Program, g: nat): nat
    requires g <= |P.codes|
  {
    Need(P, g, Inits) + Need(P, g, ThisMethods) + Need(P, g, SuperMethods) + Need(P, g, Integers) + Need(P, g, Floats)
    + Need(P, g, Longs) + Need(P, g, Doubles) + Need(P, g, Strings) + Need(P, g, Loadables) + Need(P, g, Classes) + Need(P, g, Fields)
    + Need(P, g, Methods) + Need(P, g, InterfaceMethods) + Need(P, g, Dynamics)
  }

  lemma ReferenceNext(P: Program, g: nat)
    requires g < |P.codes|
    ensures ReferenceNeed(P, g + 1) == ReferenceNeed(P, g) + ReferenceAsks(P.codes[g])
  {
    hide Asks; hide CaseCount;
  }

  /** An instruction notes as many relocations as it takes indexes from the fourteen bands: one or none. */
  lemma RelocationCounted(P: Program, c: nat, i: nat)
    requires c < |P.methods| && MethodIn(P, P.methods[c]) && i < P.methods[c].length
    ensures |Relocations(P, c, i)| == ReferenceAsks(P.codes[P.methods[c].first + i]) <= 1
  {
    hide Offset; hide Arg; hide ReferenceAsks; hide OpcodeBytes; hide ReferenceKindOf; hide ReferenceWidth; hide ReferenceBand;
    ReferenceAsksOnce(P.codes[P.methods[c].first + i]);
  }

  lemma ReferenceAsksOnce(op: byte)
    ensures ReferenceAsks(op) == One(IsInit(op) || IsThisMethod(op) || IsSuperMethod(op) || IsReference(op))
  {
  }

  lemma {:induction false} MethodRelocationsCounted(P: Program, c: nat, i: nat)
    requires c < |P.methods| && MethodIn(P, P.methods[c]) && i <= P.methods[c].length
    ensures ReferenceNeed(P, P.methods[c].first) + |MethodRelocations(P, c, i)| == ReferenceNeed(P, P.methods[c].first + i)
  {
    hide ReferenceNeed; hide ReferenceAsks; hide Relocations;
    if i > 0 {
      MethodRelocationsCounted(P, c, i - 1);
      ReferenceNext(P, P.methods[c].first + i - 1);
      RelocationCounted(P, c, i - 1);
    }
  }

  /** Through the first c methods as many relocations are noted as their opcodes take indexes. */
  lemma {:induction false} AllRelocationsCounted(P: Program, c: nat)
    requires Cut(P) && c <= |P.methods|
    ensures FirstOf(P, c) <= |P.codes| && |AllRelocations(P, c)| == ReferenceNeed(P, FirstOf(P, c))
  {
    hide ReferenceNeed; hide MethodRelocations;
    if c == 0 {
      NothingNeeded(P);
      assert c < |P.methods| ==> MethodOk(P, c);
    } else {
      AllRelocationsCounted(P, c - 1);
      assert MethodOk(P, c - 1);
      MethodRelocationsCounted(P, c - 1, P.methods[c - 1].length);
    }
  }

  lemma NothingNeeded(P: Program)
    ensures ReferenceNeed(P, 0) == 0
  {
  }

  /** The fourteen bands together hold exactly the indexes the relocations of all methods need. */
  lemma RelocationsFillTable(P: Program)
    requires Delivered(P)
    ensures |AllRelocations(P, |P.methods|)| == ReferenceNeed(P, |P.codes|) == ReferenceTotal(P)
  {
    hide Need; hide AllRelocations; hide CaseNeed; hide Supported; hide SwitchesBefore;
    AllRelocationsCounted(P, |P.methods|);
  }

  /** The values delivered in the fourteen bands. */
  function ReferenceTotal(P: Program): nat {
    Size(P, Inits) + Size(P, ThisMethods) + Size(P, SuperMethods) + Size(P, Integers) + Size(P, Floats) + Size(P, Longs)
    + Size(P, Doubles) + Size(P, Strings) + Size(P, Loadables) + Size(P, Classes) + Size(P, Fields) + Size(P, Methods)
    + Size(P, InterfaceMethods) + Size(P, Dynamics)
  }

  function Size(P: Program, k: Operand): nat {
    if k in P.operands then |P.operands[k]| else 0
  }

  lemma JumpLength(P: Program, m: Method, i: nat, distance: int, width: nat)
    requires MethodIn(P, m) && i < m.length && Jump(P, m, i, distance, width).Code?
    ensures |Jump(P, m, i, distance, width).bytes| == width
  {
  }

  lemma {:induction false} CasesLength(P: Program, m: Method, i: nat, n: nat)
    requires MethodIn(P, m) && i < m.length && IsSwitch(P.codes[m.first + i]) && Cases(P, m, i, n).Code?
    ensures |Cases(P, m, i, n).bytes| == n * if P.codes[m.first + i] == 170 then 4 else 8
  {
    hide Jump;
    if n > 0 {
      CasesLength(P, m, i, n - 1);
      JumpLength(P, m, i, Arg(P, m.first + i, Labels, n), 4);
    }
  }

  /** The parts of a switch, once it is encoded. */
  lemma SwitchParts(P: Program, m: Method, i: nat)
    requires MethodIn(P, m) && i < m.length && SwitchBytes(P, m, i).Code?
    ensures var g := m.first + i;
      var count := CaseCount(P, g);
      var low := CaseValue(P, g, 0);
      && Jump(P, m, i, Arg(P, g, Labels, 0), 4).Code? && Cases(P, m, i, count).Code?
      && (P.codes[g] != 171 ==> -0x8000_0000 <= low + count - 1 < 0x8000_0000)
      && SwitchBytes(P, m, i).bytes ==
           ((Zeros(Padding(Offset(P, m.first, i))) + Jump(P, m, i, Arg(P, g, Labels, 0), 4).bytes)
            + (if P.codes[g] == 171 then BigEndian(count, 4) else BigEndian(low, 4) + BigEndian(low + count - 1, 4)))
           + Cases(P, m, i, count).bytes
  {
    hide Jump; hide Cases; hide BigEndian; hide Offset;
  }

  lemma SwitchSize(P: Program, m: Method, i: nat)
    requires MethodIn(P, m) && i < m.length && IsSwitch(P.codes[m.first + i]) && SwitchBytes(P, m, i).Code?
    ensures 1 + |SwitchBytes(P, m, i).bytes|
         == SwitchLength(P.codes[m.first + i], Offset(P, m.first, i), CaseCount(P, m.first + i))
  {
    hide Jump; hide Cases; hide Offset; hide SwitchBytes; hide CaseValue; hide Arg; hide CaseCount;
    var g := m.first + i;
    SwitchParts(P, m, i);
    JumpLength(P, m, i, Arg(P, g, Labels, 0), 4);
    CasesLength(P, m, i, CaseCount(P, g));
  }

  /** The bytes emitted for an instruction are as many as the second pass counted. */
  lemma InstructionLength(P: Program, m: Method, i: nat)
    requires MethodIn(P, m) && i < m.length && Supported(P.codes[m.first + i]) && Instruction(P, m, i).Code?
    ensures |Instruction(P, m, i).bytes|
         == Length(P.codes[m.first + i], Offset(P, m.first, i), CaseCount(P, m.first + i))
  {
    hide Jump; hide SwitchBytes; hide Offset; hide SwitchLength; hide CaseCount; hide Arg;
    var op := P.codes[m.first + i];
    if op == 170 || op == 171 {
      SwitchSize(P, m, i);
    } else if IsLabel(op) {
      JumpLength(P, m, i, Arg(P, m.first + i, Labels, 0), if op == 200 || op == 201 then 4 else 2);
    }
  }

  lemma {:induction false} MethodLength(P: Program, m: Method, i: nat)
    requires MethodIn(P, m) && i <= m.length && MethodCode(P, m, i).Code?
    requires forall g: nat :: g < |P.codes| ==> Supported(P.codes[g])
    ensures |MethodCode(P, m, i).bytes| == Offset(P, m.first, i)
  {
    hide Instruction; hide Length; hide CaseCount; hide Supported;
    if i > 0 {
      MethodLength(P, m, i - 1);
      InstructionLength(P, m, i - 1);
    }
  }

  /** Instruction i stands at its recorded offset in the code of its method. */
  lemma {:induction false} InstructionStands(P: Program, m: Method, i: nat, n: nat)
    requires MethodIn(P, m) && i < n <= m.length && MethodCode(P, m, n).Code?
    requires forall g: nat :: g < |P.codes| ==> Supported(P.codes[g])
    ensures Instruction(P, m, i).Code?
    ensures var b := MethodCode(P, m, n).bytes;
            var at := Offset(P, m.first, i);
            at + |Instruction(P, m, i).bytes| == Offset(P, m.first, i + 1) <= |b|
            && b[at..Offset(P, m.first, i + 1)] == Instruction(P, m, i).bytes
    decreases n
  {
    hide Instruction; hide Length; hide CaseCount; hide Supported;
    MethodLength(P, m, n);
    InstructionLength(P, m, n - 1);
    MethodLength(P, m, n - 1);
    if i < n - 1 {
      InstructionStands(P, m, i, n - 1);
    }
  }

  /** What the first methods emit, the later ones keep. */
  lemma {:induction false} CodeStands(P: Program, c: nat, n: nat)
    requires Cut(P) && c < n <= |P.methods| && AllCode(P, n).Code?
    requires forall g: nat :: g < |P.codes| ==> Supported(P.codes[g])
    ensures MethodOk(P, c) && MethodCode(P, P.methods[c], P.methods[c].length).Code?
    ensures CodeOffset(P, c + 1) == CodeOffset(P, c) + CodeLength(P, P.methods[c]) <= CodeOffset(P, n) == |AllCode(P, n).bytes|
    ensures AllCode(P, n).bytes[CodeOffset(P, c)..CodeOffset(P, c) + CodeLength(P, P.methods[c])]
         == MethodCode(P, P.methods[c], P.methods[c].length).bytes
    decreases n
  {
    hide MethodCode; hide Offset; hide Supported; hide Cut;
    assert MethodOk(P, c) && MethodOk(P, n - 1) by { CutMethod(P, c); CutMethod(P, n - 1); }
    AllLength(P, n);
    AllLength(P, n - 1);
    MethodLength(P, P.methods[n - 1], P.methods[n - 1].length);
    var front, b := AllCode(P, n - 1).bytes, MethodCode(P, P.methods[n - 1], P.methods[n - 1].length).bytes;
    if c < n - 1 {
      CodeStands(P, c, n - 1);
      SliceInFront(front, b, CodeOffset(P, c), CodeOffset(P, c) + CodeLength(P, P.methods[c]));
    } else {
      assert (front + b)[|front|..|front| + |b|] == b;
    }
  }

  lemma SliceInFront(a: seq<byte>, b: seq<byte>, lo: nat, hi: nat)
    requires lo <= hi <= |a|
    ensures (a + b)[lo..hi] == a[lo..hi]
  {
  }

  lemma CutMethod(P: Program, c: nat)
    requires Cut(P) && c < |P.methods|
    ensures MethodOk(P, c)
  {
  }

  lemma {:induction false} AllLength(P: Program, n: nat)
    requires Cut(P) && n <= |P.methods| && AllCode(P, n).Code?
    requires forall g: nat :: g < |P.codes| ==> Supported(P.codes[g])
    ensures |AllCode(P, n).bytes| == CodeOffset(P, n)
  {
    hide MethodCode; hide Offset; hide Supported; hide Cut;
    if n > 0 {
      CutMethod(P, n - 1);
      AllLength(P, n - 1);
      MethodLength(P, P.methods[n - 1], P.methods[n - 1].length);
    }
  }
}
