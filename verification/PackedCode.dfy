// Pack200 bytecode bands (JSR 200): which operands each packed opcode asks for, how long its Java
// instruction is, and the bytes it becomes. The three opcode tables are written down separately, as
// the three passes of the assembler decide them separately.
module PackedCode {
  import opened Common

  /** One operand band each, in no particular order. */
  datatype Operand =
    | Bytes | Shorts | Locals | Labels | Inits | ThisMethods | SuperMethods | Integers | Floats | Longs | Doubles
    | Strings | Loadables | Classes | Fields | Methods | InterfaceMethods | Dynamics

  datatype RelocationKind =
    | InitThis | InitSuper | MethodThis | MethodSuper | ClassConstant | StringConstant | IntegerConstant | FloatConstant
    | LongConstant | DoubleConstant | LoadableConstant | FieldConstant | MethodConstant | InterfaceMethodConstant
    | DynamicConstant

  /** A constant-pool index still to be filled in. */
  datatype Relocation = Relocation(
    codeIndex: nat, operandOffset: nat, referenceIndex: int, kind: RelocationKind, operandWidth: nat := 2)

  /** One method: its first packed opcode and how many it has. */
  datatype Method = Method(first: nat, length: nat)

  /** Everything the bands say about the code of all methods. */
  datatype Program = Program(
    codes: seq<byte>,
    methods: seq<Method>,
    caseCounts: seq<nat>,
    caseValues: seq<int>,
    operands: map<Operand, seq<int>>)

  /** Bytes, or the status with which the assembler gives up. */
  datatype Code = Code(bytes: seq<byte>) | Refused(status: Status)

  //
  // First pass: what an opcode asks for
  //

  predicate IsPlain(op: byte) {
    op <= 15 || 26 <= op <= 131 || 133 <= op <= 152 || 172 <= op <= 177 || op == 190 || op == 191 || op == 194 || op == 195
  }

  predicate IsByte(op: byte) { op == 16 || op == 188 }
  predicate IsShort(op: byte) { op == 17 }
  predicate IsLocal(op: byte) { 21 <= op <= 25 || 54 <= op <= 58 || op == 169 }
  predicate IsIncrement(op: byte) { op == 132 }
  predicate IsSwitch(op: byte) { op == 170 || op == 171 }
  predicate IsInit(op: byte) { op == 230 || op == 231 }
  predicate IsThisMethod(op: byte) { 206 <= op <= 208 || 213 <= op <= 215 }
  predicate IsSuperMethod(op: byte) { 220 <= op <= 222 || 227 <= op <= 229 }
  predicate IsInteger(op: byte) { op == 234 || op == 237 }
  predicate IsFloat(op: byte) { op == 235 || op == 238 }
  predicate IsLong(op: byte) { op == 20 }
  predicate IsDouble(op: byte) { op == 239 }
  predicate IsString(op: byte) { op == 18 || op == 19 }
  predicate IsLoadable(op: byte) { op == 240 || op == 241 }
  predicate IsClass(op: byte) {
    op == 187 || op == 189 || op == 192 || op == 193 || op == 197 || op == 233 || op == 236
  }
  predicate IsField(op: byte) { 178 <= op <= 181 }
  predicate IsMethod(op: byte) { 182 <= op <= 184 }
  predicate IsInterfaceMethod(op: byte) { op == 185 || op == 242 || op == 243 }
  predicate IsDynamic(op: byte) { op == 186 }
  predicate IsLabel(op: byte) { 153 <= op <= 168 || op == 198 || op == 199 || op == 200 || op == 201 }

  predicate Supported(op: byte) {
    || IsPlain(op) || IsByte(op) || IsShort(op) || IsLocal(op) || IsIncrement(op) || IsLabel(op) || IsSwitch(op)
    || IsInit(op) || IsThisMethod(op) || IsSuperMethod(op) || IsInteger(op) || IsFloat(op) || IsLong(op)
    || IsDouble(op) || IsString(op) || IsLoadable(op) || IsClass(op) || IsField(op) || IsMethod(op)
    || IsInterfaceMethod(op) || IsDynamic(op)
  }

  function One(b: bool): nat {
    if b then 1 else 0
  }

  /** How many values of band k the opcode itself asks for, not counting the cases of a switch. */
  function Asks(op: byte, k: Operand): nat {
    match k
    case Bytes => One(IsByte(op) || IsIncrement(op)) + One(op == 197)
    case Shorts => One(IsShort(op))
    case Locals => One(IsLocal(op) || IsIncrement(op))
    case Labels => One(IsLabel(op)) + One(IsSwitch(op))
    case Inits => One(IsInit(op))
    case ThisMethods => One(IsThisMethod(op))
    case SuperMethods => One(IsSuperMethod(op))
    case Integers => One(IsInteger(op))
    case Floats => One(IsFloat(op))
    case Longs => One(IsLong(op))
    case Doubles => One(IsDouble(op))
    case Strings => One(IsString(op))
    case Loadables => One(IsLoadable(op))
    case Classes => One(IsClass(op))
    case Fields => One(IsField(op))
    case Methods => One(IsMethod(op))
    case InterfaceMethods => One(IsInterfaceMethod(op))
    case Dynamics => One(IsDynamic(op))
  }

  /** The switches among the first g opcodes. */
  function SwitchesBefore(codes: seq<byte>, g: nat): nat
    requires g <= |codes|
  {
    if g == 0 then 0 else SwitchesBefore(codes, g - 1) + One(IsSwitch(codes[g - 1]))
  }

  /** The number of cases of opcode g, if it is a switch. */
  function CaseCount(P: Program, g: nat): nat
    requires g < |P.codes|
  {
    var k := SwitchesBefore(P.codes, g);
    if IsSwitch(P.codes[g]) && k < |P.caseCounts| then P.caseCounts[k] else 0
  }

  /** How many values of band k opcode g asks for. */
  function Demand(P: Program, g: nat, k: Operand): nat
    requires g < |P.codes|
  {
    Asks(P.codes[g], k) + if k == Labels then CaseCount(P, g) else 0
  }

  /** How many values of band k the first g opcodes ask for. */
  function Need(P: Program, g: nat, k: Operand): nat
    requires g <= |P.codes|
  {
    if g == 0 then 0 else Need(P, g - 1, k) + Demand(P, g - 1, k)
  }

  /** A table switch has one case value, a lookup switch one for every case. */
  function CaseDemand(P: Program, g: nat): nat
    requires g < |P.codes|
  {
    if P.codes[g] == 170 then 1 else if P.codes[g] == 171 then CaseCount(P, g) else 0
  }

  function CaseNeed(P: Program, g: nat): nat
    requires g <= |P.codes|
  {
    if g == 0 then 0 else CaseNeed(P, g - 1) + CaseDemand(P, g - 1)
  }

  /** Value j of band k for opcode g. */
  function Arg(P: Program, g: nat, k: Operand, j: nat): int
    requires g <= |P.codes|
  {
    var at := Need(P, g, k) + j;
    if k in P.operands && at < |P.operands[k]| then P.operands[k][at] else 0
  }

  function CaseValue(P: Program, g: nat, j: nat): int
    requires g <= |P.codes|
  {
    var at := CaseNeed(P, g) + j;
    if at < |P.caseValues| then P.caseValues[at] else 0
  }

  //
  // Second pass: lengths
  //

  /** The bytes an opcode at the given offset of its method takes; count is that of a switch. */
  function Length(op: byte, offset: nat, count: nat): (r: nat)
    ensures r > 0
  {
    if op == 16 || op == 188 || 21 <= op <= 25 || 54 <= op <= 58 || op == 169 then 2
    else if op == 17 || op == 132 || 153 <= op <= 168 || op == 198 || op == 199 then 3
    else if op == 200 || op == 201 then 5
    else if op == 230 || op == 231 then 3
    else if 206 <= op <= 208 || 220 <= op <= 222 then 3
    else if 213 <= op <= 215 || 227 <= op <= 229 then 4
    else if op == 18 || op == 233 || op == 234 || op == 240 then 2
    else if op == 19 || op == 20 || op == 187 || op == 189 || op == 192 || op == 193 || op == 236 || op == 237
            || op == 238 || op == 239 || op == 241 || op == 242 || op == 243 then 3
    else if op == 235 then 2
    else if op == 197 then 4
    else if 178 <= op <= 184 then 3
    else if op == 185 then 5
    else if op == 186 then 5
    else if op == 170 || op == 171 then SwitchLength(op, offset, count)
    else 1
  }

  /** Padding brings the operands of a switch to a multiple of four from the start of the method. */
  function Padding(offset: nat): nat {
    3 - offset % 4
  }

  function SwitchLength(op: byte, offset: nat, count: nat): nat {
    1 + Padding(offset) + (if op == 170 then 12 else 8) + count * if op == 170 then 4 else 8
  }

  /** Where instruction i of the method whose first opcode is `first` begins in its method. */
  function Offset(P: Program, first: nat, i: nat): nat
    requires first + i <= |P.codes|
  {
    if i == 0 then 0
    else
      var before := Offset(P, first, i - 1);
      before + Length(P.codes[first + i - 1], before, CaseCount(P, first + i - 1))
  }

  predicate MethodIn(P: Program, m: Method) {
    m.first + m.length <= |P.codes|
  }

  function CodeLength(P: Program, m: Method): nat
    requires MethodIn(P, m)
  {
    Offset(P, m.first, m.length)
  }

  /** Where method c must begin: right behind the previous one. */
  function FirstOf(P: Program, c: nat): nat
    requires c <= |P.methods|
  {
    if c == 0 then 0 else P.methods[c - 1].first + P.methods[c - 1].length
  }

  predicate MethodOk(P: Program, c: nat)
    requires c < |P.methods|
  {
    MethodIn(P, P.methods[c]) && P.methods[c].length > 0 && P.methods[c].first == FirstOf(P, c)
  }

  /** The methods cut the opcodes into consecutive runs. */
  ghost predicate Cut(P: Program) {
    (forall c: nat :: c < |P.methods| ==> MethodOk(P, c)) && |P.codes| == FirstOf(P, |P.methods|)
  }

  /** Where the code of method c begins in the code of all methods. */
  ghost function CodeOffset(P: Program, c: nat): nat
    requires c <= |P.methods| && Cut(P)
  {
    if c == 0 then 0 else assert MethodOk(P, c - 1); CodeOffset(P, c - 1) + CodeLength(P, P.methods[c - 1])
  }

  //
  // Third pass: bytes
  //

  /** The Java opcode, preceded by aload_0 where the packed opcode stands for both. */
  function OpcodeBytes(op: byte): (r: seq<byte>)
    ensures |r| == 1 || |r| == 2
  {
    var combinedThis := 213 <= op <= 215;
    var combinedSuper := 227 <= op <= 229;
    (if combinedThis || combinedSuper then [42] else []) +
    (if 206 <= op <= 208 || combinedThis then [182 + if combinedThis then op - 213 else op - 206]
     else if 220 <= op <= 222 || combinedSuper then [182 + if combinedSuper then op - 227 else op - 220]
     else if op == 233 || op == 234 || op == 235 then [18]
     else if op == 236 || op == 237 || op == 238 then [19]
     else if op == 239 then [20]
     else if op == 240 then [18]
     else if op == 241 then [19]
     else if op == 242 then [183]
     else if op == 243 then [184]
     else [if op == 230 || op == 231 then 183 else op])
  }

  function Then(a: Code, b: Code): Code {
    if a.Refused? then a else if b.Refused? then b else Code(a.bytes + b.bytes)
  }

  /** The displacement from instruction i to the one `distance` instructions away, in the given width. */
  function Jump(P: Program, m: Method, i: nat, distance: int, width: nat): Code
    requires MethodIn(P, m) && i < m.length
  {
    var target := i + distance;
    if target < 0 || target >= m.length then Refused(InvalidNetworkResponse)
    else
      var displacement := Offset(P, m.first, target) - Offset(P, m.first, i);
      var limit := if width == 2 then 0x8000 else 0x8000_0000;
      if displacement < -limit || displacement >= limit then Refused(IntegerOverflow)
      else Code(BigEndian(displacement, width))
  }

  /** The first n cases of a switch: for a lookup switch the value, then the displacement. */
  function Cases(P: Program, m: Method, i: nat, n: nat): Code
    requires MethodIn(P, m) && i < m.length
  {
    if n == 0 then Code([])
    else
      var g := m.first + i;
      Then(Then(Cases(P, m, i, n - 1),
                Code(if P.codes[g] == 171 then BigEndian(CaseValue(P, g, n - 1), 4) else [])),
           Jump(P, m, i, Arg(P, g, Labels, n), 4))
  }

  /** The low and high value of a table switch, the number of cases of a lookup switch. */
  function Bounds(P: Program, g: nat): Code
    requires g < |P.codes|
  {
    var low := CaseValue(P, g, 0);
    var high := low + CaseCount(P, g) - 1;
    if P.codes[g] == 171 then Code(BigEndian(CaseCount(P, g), 4))
    else if high < -0x8000_0000 || high >= 0x8000_0000 then Refused(IntegerOverflow)
    else Code(BigEndian(low, 4) + BigEndian(high, 4))
  }

  /** Padding, default, and low and high value or the number of cases, then the cases. */
  function SwitchBytes(P: Program, m: Method, i: nat): Code
    requires MethodIn(P, m) && i < m.length
  {
    var g := m.first + i;
    Then(Then(Then(Code(Zeros(Padding(Offset(P, m.first, i)))), Jump(P, m, i, Arg(P, g, Labels, 0), 4)), Bounds(P, g)),
         Cases(P, m, i, CaseCount(P, g)))
  }

  predicate IsReference(op: byte) {
    || op == 18 || op == 19 || op == 20 || 233 <= op <= 241 || op == 187 || op == 189 || op == 192 || op == 193
    || op == 197 || 178 <= op <= 186 || op == 242 || op == 243
  }

  /** The band a reference instruction reads, by the third pass's own tests. */
  function ReferenceBand(op: byte): Operand {
    if op == 234 || op == 237 then Integers
    else if op == 235 || op == 238 then Floats
    else if op == 20 then Longs
    else if op == 239 then Doubles
    else if op == 18 || op == 19 then Strings
    else if op == 240 || op == 241 then Loadables
    else if 178 <= op <= 181 then Fields
    else if 182 <= op <= 184 then Methods
    else if op == 185 || op == 242 || op == 243 then InterfaceMethods
    else if op == 186 then Dynamics
    else Classes
  }

  function ReferenceKindOf(band: Operand): RelocationKind {
    match band
    case Integers => IntegerConstant
    case Floats => FloatConstant
    case Longs => LongConstant
    case Doubles => DoubleConstant
    case Strings => StringConstant
    case Loadables => LoadableConstant
    case Fields => FieldConstant
    case Methods => MethodConstant
    case InterfaceMethods => InterfaceMethodConstant
    case Dynamics => DynamicConstant
    case _ => ClassConstant
  }

  function ReferenceWidth(op: byte): nat {
    if op == 18 || op == 233 || op == 234 || op == 235 || op == 240 then 1 else 2
  }

  /** The operands of instruction i of a method. */
  function OperandBytes(P: Program, m: Method, i: nat): Code
    requires MethodIn(P, m) && i < m.length
  {
    var g := m.first + i;
    var op := P.codes[g];
    if op == 16 || op == 188 then Code(BigEndian(Arg(P, g, Bytes, 0), 1))
    else if op == 17 then Code(BigEndian(Arg(P, g, Shorts, 0), 2))
    else if 21 <= op <= 25 || 54 <= op <= 58 || op == 169 then
      if Arg(P, g, Locals, 0) > 0xff then Refused(InvalidNetworkResponse)
      else Code(BigEndian(Arg(P, g, Locals, 0), 1))
    else if op == 132 then
      if Arg(P, g, Locals, 0) > 0xff then Refused(InvalidNetworkResponse)
      else Code(BigEndian(Arg(P, g, Locals, 0), 1) + BigEndian(Arg(P, g, Bytes, 0), 1))
    else if op == 170 || op == 171 then SwitchBytes(P, m, i)
    else if op == 230 || op == 231 then Code([0, 0])
    else if 206 <= op <= 208 || 213 <= op <= 215 || 220 <= op <= 222 || 227 <= op <= 229 then Code([0, 0])
    else if IsReference(op) then
      Code(Zeros(ReferenceWidth(op)) + (if op == 185 || op == 186 then [0, 0] else [])
           + (if op == 197 then BigEndian(Arg(P, g, Bytes, 0), 1) else []))
    else if 153 <= op <= 168 || op == 198 || op == 199 || op == 200 || op == 201 then
      Jump(P, m, i, Arg(P, g, Labels, 0), if op == 200 || op == 201 then 4 else 2)
    else Code([])
  }

  /** The constant-pool index instruction i leaves open, if any. */
  function Relocations(P: Program, c: nat, i: nat): seq<Relocation>
    requires c < |P.methods| && MethodIn(P, P.methods[c]) && i < P.methods[c].length
  {
    var m := P.methods[c];
    var g := m.first + i;
    var op := P.codes[g];
    var at := Offset(P, m.first, i) + |OpcodeBytes(op)|;
    if op == 230 || op == 231 then
      [Relocation(c, at, Arg(P, g, Inits, 0), if op == 230 then InitThis else InitSuper)]
    else if 206 <= op <= 208 || 213 <= op <= 215 then [Relocation(c, at, Arg(P, g, ThisMethods, 0), MethodThis)]
    else if 220 <= op <= 222 || 227 <= op <= 229 then [Relocation(c, at, Arg(P, g, SuperMethods, 0), MethodSuper)]
    else if IsReference(op) then
      [Relocation(c, at, Arg(P, g, ReferenceBand(op), 0), ReferenceKindOf(ReferenceBand(op)), ReferenceWidth(op))]
    else []
  }

  function Instruction(P: Program, m: Method, i: nat): Code
    requires MethodIn(P, m) && i < m.length
  {
    Then(Code(OpcodeBytes(P.codes[m.first + i])), OperandBytes(P, m, i))
  }

  /** The code of the first i instructions of a method. */
  function MethodCode(P: Program, m: Method, i: nat): Code
    requires MethodIn(P, m) && i <= m.length
  {
    if i == 0 then Code([]) else Then(MethodCode(P, m, i - 1), Instruction(P, m, i - 1))
  }

  /** The code of the first c methods. */
  ghost function AllCode(P: Program, c: nat): Code
    requires Cut(P) && c <= |P.methods|
  {
    if c == 0 then Code([]) else
    assert MethodOk(P, c - 1);
    Then(AllCode(P, c - 1), MethodCode(P, P.methods[c - 1], P.methods[c - 1].length))
  }

  function MethodRelocations(P: Program, c: nat, i: nat): seq<Relocation>
    requires c < |P.methods| && MethodIn(P, P.methods[c]) && i <= P.methods[c].length
  {
    if i == 0 then [] else MethodRelocations(P, c, i - 1) + Relocations(P, c, i - 1)
  }

  ghost function AllRelocations(P: Program, c: nat): seq<Relocation>
    requires Cut(P) && c <= |P.methods|
  {
    if c == 0 then [] else assert MethodOk(P, c - 1); AllRelocations(P, c - 1) + MethodRelocations(P, c - 1, P.methods[c - 1].length)
  }
}
