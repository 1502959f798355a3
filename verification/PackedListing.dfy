// The emitted code disassembled: a reader that knows the instruction formats of the Java virtual machine (Java
// Virtual Machine Specification, sections 6.5 and 7) and takes one relocation per open constant, and the
// instructions that packed opcodes name (JSR 200, section 5.8 of the network transfer format). The two agree.
module PackedListing {
  import opened Common
  import opened PackedCode
  import opened PackedFacts
  import opened JavaCode

  //
  // The virtual machine's instructions
  //

  const BIPUSH: byte := 0x10
  const SIPUSH: byte := 0x11
  const LDC: byte := 0x12
  const LDC_W: byte := 0x13
  const LDC2_W: byte := 0x14
  const ILOAD: byte := 0x15
  const ALOAD: byte := 0x19
  const ALOAD_0: byte := 0x2a
  const ISTORE: byte := 0x36
  const ASTORE: byte := 0x3a
  const IINC: byte := 0x84
  const IFEQ: byte := 0x99
  const JSR: byte := 0xa8
  const RET: byte := 0xa9
  const TABLESWITCH: byte := 0xaa
  const LOOKUPSWITCH: byte := 0xab
  const GETSTATIC: byte := 0xb2
  const PUTFIELD: byte := 0xb5
  const INVOKEVIRTUAL: byte := 0xb6
  const INVOKESPECIAL: byte := 0xb7
  const INVOKESTATIC: byte := 0xb8
  const INVOKEINTERFACE: byte := 0xb9
  const INVOKEDYNAMIC: byte := 0xba
  const NEW: byte := 0xbb
  const NEWARRAY: byte := 0xbc
  const ANEWARRAY: byte := 0xbd
  const CHECKCAST: byte := 0xc0
  const INSTANCEOF: byte := 0xc1
  const MULTIANEWARRAY: byte := 0xc5
  const IFNULL: byte := 0xc6
  const IFNONNULL: byte := 0xc7
  const GOTO_W: byte := 0xc8
  const JSR_W: byte := 0xc9

  /** What follows an opcode. A constant has a width and what comes behind it. */
  datatype Form =
    | Bare | ByteForm | ShortForm | LocalForm | IncrementForm | BranchForm | SwitchForm | ConstantForm(width: nat, tail: Tail)

  datatype Tail = NoTail | TwoZeros | Dimensions

  function FormOf(op: byte): Form {
    if op == BIPUSH || op == NEWARRAY then ByteForm
    else if op == SIPUSH then ShortForm
    else if ILOAD <= op <= ALOAD || ISTORE <= op <= ASTORE || op == RET then LocalForm
    else if op == IINC then IncrementForm
    else if IFEQ <= op <= JSR || op == IFNULL || op == IFNONNULL || op == GOTO_W || op == JSR_W then BranchForm
    else if op == TABLESWITCH || op == LOOKUPSWITCH then SwitchForm
    else if op == LDC then ConstantForm(1, NoTail)
    else if op == LDC_W || op == LDC2_W || GETSTATIC <= op <= INVOKESTATIC || op == NEW || op == ANEWARRAY
            || op == CHECKCAST || op == INSTANCEOF then ConstantForm(2, NoTail)
    else if op == INVOKEINTERFACE || op == INVOKEDYNAMIC then ConstantForm(2, TwoZeros)
    else if op == MULTIANEWARRAY then ConstantForm(2, Dimensions)
    else Bare
  }

  /** An instruction: its opcode and its operands; places in the code are offsets in the method. */
  datatype Insn =
    | Simple(op: byte)
    | Immediate(op: byte, value: nat)
    | Local(op: byte, index: int)
    | Increment(index: int, amount: nat)
    | Branch(op: byte, target: int)
    | Switch(op: byte, targets: seq<int>, values: seq<int>)
    | Constant(op: byte, kind: RelocationKind, reference: int, dimensions: nat)

  /** An unsigned number of one or two octets. */
  function Octet(code: seq<byte>, at: nat): nat {
    if at < |code| then code[at] else 0
  }

  function Pair(code: seq<byte>, at: nat): nat {
    Octet(code, at) * 0x100 + Octet(code, at + 1)
  }

  /** The case values of the switch at pos: the low one of a table, every one of a lookup. */
  function SwitchValues(code: seq<byte>, pos: nat, n: nat): seq<int>
    requires pos < |code|
  {
    if code[pos] == TABLESWITCH then [Read(code, SwitchBase(pos) + 4, 4)]
    else seq(n, j => if j >= 0 then Read(code, SwitchBase(pos) + 8 + 8 * j, 4) else 0)
  }

  /** The instruction at pos; r is the relocation at hand, which must be this instruction's if it has a constant. */
  function Decoded(code: seq<byte>, c: nat, pos: nat, relocations: seq<Relocation>): Option<Insn>
    requires pos < |code|
  {
    var op := code[pos];
    match FormOf(op)
    case Bare => Some(Simple(op))
    case ByteForm => Some(Immediate(op, Octet(code, pos + 1)))
    case ShortForm => Some(Immediate(op, Pair(code, pos + 1)))
    case LocalForm => Some(Local(op, Octet(code, pos + 1)))
    case IncrementForm => Some(Increment(Octet(code, pos + 1), Octet(code, pos + 2)))
    case BranchForm => Some(Branch(op, pos + if op == GOTO_W || op == JSR_W then Read(code, pos + 1, 4) else Read(code, pos + 1, 2)))
    case SwitchForm =>
      var targets := Targets(code, pos);
      if targets == [] then None else Some(Switch(op, targets, SwitchValues(code, pos, |targets| - 1)))
    case ConstantForm(width, tail) =>
      if relocations == [] then None
      else
        var r := relocations[0];
        // the open index is this one, in its full width, and still zero
        if r.codeIndex != c || r.operandOffset != pos + 1 || r.operandWidth != width || Octet(code, pos + 1) != 0
           || (width == 2 && Octet(code, pos + 2) != 0) || (tail == TwoZeros && Pair(code, pos + 3) != 0) then None
        else Some(Constant(op, r.kind, r.referenceIndex, if tail == Dimensions then Octet(code, pos + 3) else 0))
  }

  /** The instructions of method c from pos on, each with its place, and the relocations left over. */
  function Listing(code: seq<byte>, c: nat, pos: nat, relocations: seq<Relocation>): Option<(seq<(nat, Insn)>, seq<Relocation>)>
    decreases |code| - pos
  {
    if pos >= |code| then (if pos == |code| then Some(([], relocations)) else None)
    else
      match JavaLength(code, pos)
      case None => None
      case Some(n) =>
        match Decoded(code, c, pos, relocations)
        case None => None
        case Some(insn) =>
          match Listing(code, c, pos + n, if insn.Constant? then relocations[1..] else relocations)
          case None => None
          case Some(rest) => Some(([(pos, insn)] + rest.0, rest.1))
  }

  //
  // The packed opcodes' instructions
  //

  /** The opcode a packed opcode stands for, behind the aload_0 of a combined one. */
  function JavaOpcode(op: byte): byte {
    match op
    // invokevirtual, invokespecial and invokestatic, of this class and of its superclass, without and with aload_0
    case 206 => INVOKEVIRTUAL case 207 => INVOKESPECIAL case 208 => INVOKESTATIC
    case 213 => INVOKEVIRTUAL case 214 => INVOKESPECIAL case 215 => INVOKESTATIC
    case 220 => INVOKEVIRTUAL case 221 => INVOKESPECIAL case 222 => INVOKESTATIC
    case 227 => INVOKEVIRTUAL case 228 => INVOKESPECIAL case 229 => INVOKESTATIC
    // invokespecial of an initialiser of this class and of its superclass
    case 230 => INVOKESPECIAL case 231 => INVOKESPECIAL
    // class, int and float constants, short and wide, double and any loadable ones
    case 233 => LDC case 234 => LDC case 235 => LDC case 236 => LDC_W case 237 => LDC_W case 238 => LDC_W
    case 239 => LDC2_W case 240 => LDC case 241 => LDC_W
    // special and static methods of interfaces
    case 242 => INVOKESPECIAL case 243 => INVOKESTATIC
    case _ => op
  }

  predicate WithThis(op: byte) {
    op == 213 || op == 214 || op == 215 || op == 227 || op == 228 || op == 229
  }

  /** Where the constant of a packed opcode comes from, and its kind. */
  function SourceOf(op: byte): (Operand, RelocationKind) {
    match op
    case 18 => (Strings, StringConstant) case 19 => (Strings, StringConstant) case 20 => (Longs, LongConstant)
    case 178 => (Fields, FieldConstant) case 179 => (Fields, FieldConstant)
    case 180 => (Fields, FieldConstant) case 181 => (Fields, FieldConstant)
    case 182 => (Methods, MethodConstant) case 183 => (Methods, MethodConstant) case 184 => (Methods, MethodConstant)
    case 185 => (InterfaceMethods, InterfaceMethodConstant) case 186 => (Dynamics, DynamicConstant)
    case 206 => (ThisMethods, MethodThis) case 207 => (ThisMethods, MethodThis) case 208 => (ThisMethods, MethodThis)
    case 213 => (ThisMethods, MethodThis) case 214 => (ThisMethods, MethodThis) case 215 => (ThisMethods, MethodThis)
    case 220 => (SuperMethods, MethodSuper) case 221 => (SuperMethods, MethodSuper) case 222 => (SuperMethods, MethodSuper)
    case 227 => (SuperMethods, MethodSuper) case 228 => (SuperMethods, MethodSuper) case 229 => (SuperMethods, MethodSuper)
    case 230 => (Inits, InitThis) case 231 => (Inits, InitSuper)
    case 234 => (Integers, IntegerConstant) case 237 => (Integers, IntegerConstant)
    case 235 => (Floats, FloatConstant) case 238 => (Floats, FloatConstant) case 239 => (Doubles, DoubleConstant)
    case 240 => (Loadables, LoadableConstant) case 241 => (Loadables, LoadableConstant)
    case 242 => (InterfaceMethods, InterfaceMethodConstant) case 243 => (InterfaceMethods, InterfaceMethodConstant)
    case _ => (Classes, ClassConstant)
  }

  predicate Switches(op: byte) {
    op == TABLESWITCH || op == LOOKUPSWITCH
  }

  /** The values of band k that the operands of a packed opcode take, cases of a switch apart. */
  function Uses(op: byte, k: Operand): nat {
    match FormOf(JavaOpcode(op))
    case Bare => 0
    case ByteForm => if k == Bytes then 1 else 0
    case ShortForm => if k == Shorts then 1 else 0
    case LocalForm => if k == Locals then 1 else 0
    case IncrementForm => if k == Locals || k == Bytes then 1 else 0
    case BranchForm => if k == Labels then 1 else 0
    case SwitchForm => if k == Labels then 1 else 0
    case ConstantForm(_, tail) => (if k == SourceOf(op).0 then 1 else 0) + if k == Bytes && tail == Dimensions then 1 else 0
  }

  function SwitchIndex(codes: seq<byte>, g: nat): nat
    requires g <= |codes|
  {
    if g == 0 then 0 else SwitchIndex(codes, g - 1) + if Switches(codes[g - 1]) then 1 else 0
  }

  /** The number of cases of opcode g. */
  function CasesOf(P: Program, g: nat): nat
    requires g < |P.codes|
  {
    var k := SwitchIndex(P.codes, g);
    if Switches(P.codes[g]) && k < |P.caseCounts| then P.caseCounts[k] else 0
  }

  /** How many values of band k the opcodes before g have taken. */
  function Taken(P: Program, g: nat, k: Operand): nat
    requires g <= |P.codes|
  {
    if g == 0 then 0 else Taken(P, g - 1, k) + Uses(P.codes[g - 1], k) + if k == Labels then CasesOf(P, g - 1) else 0
  }

  /** How many case values they have taken. */
  function ValuesTaken(P: Program, g: nat): nat
    requires g <= |P.codes|
  {
    if g == 0 then 0
    else
      ValuesTaken(P, g - 1)
      + if P.codes[g - 1] == TABLESWITCH then 1 else if P.codes[g - 1] == LOOKUPSWITCH then CasesOf(P, g - 1) else 0
  }

  /** The values of band k that are next when opcode g is reached. */
  function Next(P: Program, g: nat, k: Operand, j: nat): int
    requires g <= |P.codes|
  {
    if k in P.operands && Taken(P, g, k) + j < |P.operands[k]| then P.operands[k][Taken(P, g, k) + j] else 0
  }

  function NextValue(P: Program, g: nat, j: nat): int
    requires g <= |P.codes|
  {
    if ValuesTaken(P, g) + j < |P.caseValues| then P.caseValues[ValuesTaken(P, g) + j] else 0
  }

  /** The place of the instruction `distance` instructions away from instruction i. */
  function TargetOf(P: Program, m: Method, i: nat, distance: int): int
    requires MethodIn(P, m)
  {
    if 0 <= i + distance < m.length then Offset(P, m.first, i + distance) else -1
  }

  /** The instruction that packed opcode i of a method names, with the next values of the bands. */
  function Meaning(P: Program, m: Method, i: nat): Insn
    requires MethodIn(P, m) && i < m.length
  {
    var g := m.first + i;
    var op := P.codes[g];
    var java := JavaOpcode(op);
    match FormOf(java)
    case Bare => Simple(java)
    case ByteForm => Immediate(java, Next(P, g, Bytes, 0) % 0x100)
    case ShortForm => Immediate(java, Next(P, g, Shorts, 0) % 0x1_0000)
    case LocalForm => Local(java, Next(P, g, Locals, 0))
    case IncrementForm => Increment(Next(P, g, Locals, 0), Next(P, g, Bytes, 0) % 0x100)
    case BranchForm => Branch(java, TargetOf(P, m, i, Next(P, g, Labels, 0)))
    case SwitchForm =>
      Switch(java, seq(CasesOf(P, g) + 1, j => TargetOf(P, m, i, Next(P, g, Labels, if j >= 0 then j else 0))),
             if java == TABLESWITCH then [NextValue(P, g, 0)]
             else seq(CasesOf(P, g), j => NextValue(P, g, if j >= 0 then j else 0)))
    case ConstantForm(_, tail) =>
      Constant(java, SourceOf(op).1, Next(P, g, SourceOf(op).0, 0), if tail == Dimensions then Next(P, g, Bytes, 0) % 0x100 else 0)
  }

  /** What a method says from instruction i on. */
  function Meanings(P: Program, m: Method, i: nat): seq<(nat, Insn)>
    requires MethodIn(P, m) && i <= m.length
    decreases m.length - i
  {
    if i == m.length then []
    else
      var at := Offset(P, m.first, i);
      (if WithThis(P.codes[m.first + i]) then [(at, Simple(ALOAD_0)), (at + 1, Meaning(P, m, i))] else [(at, Meaning(P, m, i))])
      + Meanings(P, m, i + 1)
  }
}
