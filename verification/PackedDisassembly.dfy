// Every assembled method, disassembled, lists the instructions its packed opcodes name, with the operands and
// constants that were next in the bands, and uses up its relocations one by one.
module PackedDisassembly {
  import opened Common
  import opened Octets
  import opened PackedCode
  import opened PackedFacts
  import opened PackedReader
  import opened JavaCode
  import opened PackedListing

  //
  // The tables agree
  //

  lemma OpcodesAre(op: byte)
    requires Supported(op)
    ensures OpcodeBytes(op) == (if WithThis(op) then [ALOAD_0] else []) + [JavaOpcode(op)]
    ensures (WithThis(op) <==> Combined(op)) && (Switches(op) <==> IsSwitch(op))
    ensures FormOf(ALOAD_0) == Bare && (WithThis(op) ==> FormOf(JavaOpcode(op)) == ConstantForm(2, NoTail))
  {
  }

  /** Opcodes with a constant. */
  predicate HasConstant(op: byte) {
    IsReference(op) || IsInit(op) || IsThisMethod(op) || IsSuperMethod(op)
  }

  lemma FormIs(op: byte)
    requires Supported(op)
    ensures HasConstant(op) <==> FormOf(JavaOpcode(op)).ConstantForm?
    ensures IsPlain(op) && !IsLocal(op) ==> FormOf(JavaOpcode(op)) == Bare
    ensures IsByte(op) ==> FormOf(JavaOpcode(op)) == ByteForm
    ensures IsShort(op) ==> FormOf(JavaOpcode(op)) == ShortForm
    ensures IsLocal(op) ==> FormOf(JavaOpcode(op)) == LocalForm
    ensures IsIncrement(op) ==> FormOf(JavaOpcode(op)) == IncrementForm
    ensures IsLabel(op) ==> FormOf(JavaOpcode(op)) == BranchForm
    ensures IsSwitch(op) ==> FormOf(JavaOpcode(op)) == SwitchForm
    ensures !HasConstant(op) ==>
              IsPlain(op) || IsByte(op) || IsShort(op) || IsLocal(op) || IsIncrement(op) || IsLabel(op) || IsSwitch(op)
  {
  }

  lemma ConstantFormIs(op: byte)
    requires Supported(op) && HasConstant(op)
    ensures FormOf(JavaOpcode(op)) == ConstantForm(if IsReference(op) then ReferenceWidth(op) else 2,
              if op == 185 || op == 186 then TwoZeros else if op == 197 then Dimensions else NoTail)
  {
  }

  lemma SourceIs(op: byte)
    requires Supported(op) && HasConstant(op)
    ensures IsInit(op) ==> SourceOf(op) == (Inits, if op == 230 then InitThis else InitSuper)
    ensures IsThisMethod(op) ==> SourceOf(op) == (ThisMethods, MethodThis)
    ensures IsSuperMethod(op) ==> SourceOf(op) == (SuperMethods, MethodSuper)
    ensures !IsInit(op) && !IsThisMethod(op) && !IsSuperMethod(op) ==>
              IsReference(op) && SourceOf(op) == (ReferenceBand(op), ReferenceKindOf(ReferenceBand(op)))
  {
  }

  /** One band has the constant. */
  lemma BandAsks(op: byte, k: Operand)
    requires Supported(op) && HasConstant(op) && k != Bytes
    ensures Asks(op, k) == if k == SourceOf(op).0 then 1 else 0
  {
    hide SourceOf; hide Supported;
    SourceIs(op);
    if IsInit(op) || IsThisMethod(op) || IsSuperMethod(op) {
    } else {
      ReferenceAsk(op, k);
    }
  }

  /** Each reference opcode is in the class of its band, and in no other. */
  lemma ReferenceClasses(op: byte)
    requires IsReference(op)
    ensures (IsInteger(op) <==> ReferenceBand(op) == Integers) && (IsFloat(op) <==> ReferenceBand(op) == Floats)
    ensures (IsLong(op) <==> ReferenceBand(op) == Longs) && (IsDouble(op) <==> ReferenceBand(op) == Doubles)
    ensures (IsString(op) <==> ReferenceBand(op) == Strings) && (IsLoadable(op) <==> ReferenceBand(op) == Loadables)
    ensures (IsClass(op) <==> ReferenceBand(op) == Classes) && (IsField(op) <==> ReferenceBand(op) == Fields)
    ensures (IsMethod(op) <==> ReferenceBand(op) == Methods) && (IsInterfaceMethod(op) <==> ReferenceBand(op) == InterfaceMethods)
    ensures IsDynamic(op) <==> ReferenceBand(op) == Dynamics
  {
  }

  lemma ReferenceOnly(op: byte)
    requires IsReference(op)
    ensures !IsInit(op) && !IsThisMethod(op) && !IsSuperMethod(op) && !IsShort(op) && !IsLocal(op) && !IsIncrement(op)
    ensures !IsLabel(op) && !IsSwitch(op)
    ensures ReferenceBand(op) !in {Bytes, Shorts, Locals, Labels, Inits, ThisMethods, SuperMethods}
  {
  }

  lemma ReferenceAsk(op: byte, k: Operand)
    requires IsReference(op) && k != Bytes
    ensures Asks(op, k) == if k == ReferenceBand(op) then 1 else 0
  {
    hide ReferenceBand; hide IsReference; hide IsInteger; hide IsFloat; hide IsLong; hide IsDouble; hide IsString; hide IsLoadable;
    hide IsClass; hide IsField; hide IsMethod; hide IsInterfaceMethod; hide IsDynamic; hide IsInit; hide IsThisMethod;
    hide IsSuperMethod; hide IsShort; hide IsLocal; hide IsIncrement; hide IsLabel; hide IsSwitch;
    ReferenceClasses(op);
    ReferenceOnly(op);
  }

  lemma NumberAsks(op: byte, k: Operand)
    requires Supported(op) && !HasConstant(op)
    ensures Asks(op, k) == if k == Bytes then One(IsByte(op) || IsIncrement(op)) else if k == Shorts then One(IsShort(op))
                           else if k == Locals then One(IsLocal(op) || IsIncrement(op))
                           else if k == Labels then One(IsLabel(op) || IsSwitch(op)) else 0
  {
  }

  lemma UsesAre(op: byte, k: Operand)
    requires Supported(op)
    ensures Uses(op, k) == Asks(op, k)
  {
    hide FormOf; hide JavaOpcode; hide SourceOf; hide Supported; hide IsReference; hide IsInit; hide IsThisMethod; hide IsSuperMethod;
    hide IsByte; hide IsShort; hide IsLocal; hide IsIncrement; hide IsLabel; hide IsSwitch; hide IsPlain; hide HasConstant;
    FormIs(op);
    if HasConstant(op) {
      ConstantFormIs(op);
      SourceNotBytes(op);
      Bytes197(op);
      if k != Bytes { BandAsks(op, k); }
    } else {
      NumberAsks(op, k);
      NumberForms(op);
    }
  }

  lemma Bytes197(op: byte)
    requires HasConstant(op)
    ensures IsReference(op) || op !in {185, 186, 197}
  {
  }

  lemma SourceNotBytes(op: byte)
    ensures SourceOf(op).0 != Bytes && Asks(op, Bytes) == One(IsByte(op) || IsIncrement(op)) + One(op == 197)
    ensures HasConstant(op) ==> !IsByte(op) && !IsIncrement(op)
  {
  }

  /** No opcode without a constant has two forms, but for the stores among the plain ones. */
  lemma NumberForms(op: byte)
    ensures One(IsByte(op)) + One(IsShort(op)) + One(IsLocal(op)) + One(IsIncrement(op)) + One(IsLabel(op)) + One(IsSwitch(op)) <= 1
    ensures IsPlain(op) ==> !IsByte(op) && !IsShort(op) && !IsIncrement(op) && !IsLabel(op) && !IsSwitch(op)
  {
  }

  //
  // The cursors agree
  //

  lemma {:induction false} SwitchesAre(P: Program, g: nat)
    requires g <= |P.codes| && AllSupported(P.codes)
    ensures SwitchIndex(P.codes, g) == SwitchesBefore(P.codes, g)
  {
    if g > 0 {
      SwitchesAre(P, g - 1);
      OpcodesAre(P.codes[g - 1]);
    }
  }

  lemma CasesAre(P: Program, g: nat)
    requires g < |P.codes| && AllSupported(P.codes)
    ensures CasesOf(P, g) == CaseCount(P, g)
  {
    hide Supported;
    SwitchesAre(P, g);
    OpcodesAre(P.codes[g]);
  }

  lemma {:induction false} TakenIs(P: Program, g: nat, k: Operand)
    requires g <= |P.codes| && AllSupported(P.codes)
    ensures Taken(P, g, k) == Need(P, g, k)
  {
    hide Supported; hide Uses; hide Asks; hide CasesOf; hide CaseCount;
    if g > 0 {
      TakenIs(P, g - 1, k);
      UsesAre(P.codes[g - 1], k);
      CasesAre(P, g - 1);
    }
  }

  lemma {:induction false} ValuesAre(P: Program, g: nat)
    requires g <= |P.codes| && AllSupported(P.codes)
    ensures ValuesTaken(P, g) == CaseNeed(P, g)
  {
    hide Supported; hide CasesOf; hide CaseCount;
    if g > 0 {
      ValuesAre(P, g - 1);
      CasesAre(P, g - 1);
    }
  }

  lemma NextIs(P: Program, g: nat, k: Operand, j: nat)
    requires g <= |P.codes| && AllSupported(P.codes)
    ensures Next(P, g, k, j) == Arg(P, g, k, j) && NextValue(P, g, j) == CaseValue(P, g, j)
  {
    hide Supported; hide Taken; hide Need; hide ValuesTaken; hide CaseNeed;
    TakenIs(P, g, k);
    ValuesAre(P, g);
  }

  //
  // Reading one instruction
  //

  /** Octet x of the operands of instruction i. */
  lemma OperandAt(code: seq<byte>, P: Program, m: Method, i: nat, x: nat)
    requires MethodIn(P, m) && i < m.length && Instruction(P, m, i).Code? && Stands(code, P, m, i) && OperandBytes(P, m, i).Code?
    requires x < |OperandBytes(P, m, i).bytes|
    ensures var at := Offset(P, m.first, i) + |OpcodeBytes(P.codes[m.first + i])|;
      at + |OperandBytes(P, m, i).bytes| <= |code| && code[at + x] == OperandBytes(P, m, i).bytes[x]
  {
    hide OperandBytes; hide OpcodeBytes; hide Offset;
    var at := Offset(P, m.first, i);
    var s := Instruction(P, m, i).bytes;
    var h := |OpcodeBytes(P.codes[m.first + i])|;
    assert code[at..at + |s|][h + x] == s[h + x];
  }

  lemma OneOctet(v: int)
    ensures BigEndian(v, 1)[0] == v % 0x100
  {
    Pow2Bytes();
    IntegerValue(v, 1);
    assert BigEndian(v, 1)[..0] == [];
  }

  lemma TwoOctets(v: int)
    ensures BigEndian(v, 2)[0] as int * 0x100 + BigEndian(v, 2)[1] as int == v % 0x1_0000
  {
    hide BigEndian;
    Pow2Bytes();
    IntegerValue(v, 2);
    var b: seq<int> := BigEndian(v, 2);
    FromBigEndian2(b);
  }

  /** Where the Java opcode of instruction i stands. */
  function JavaPlace(P: Program, m: Method, i: nat): nat
    requires MethodIn(P, m) && i < m.length
  {
    Offset(P, m.first, i) + if WithThis(P.codes[m.first + i]) then 1 else 0
  }

  ghost predicate Ready(code: seq<byte>, P: Program, m: Method, i: nat) {
    && Delivered(P) && Unsigned(P.operands) && MethodIn(P, m) && i < m.length && Instruction(P, m, i).Code? && Stands(code, P, m, i)
    && OperandBytes(P, m, i).Code?
  }

  lemma ReadyFacts(code: seq<byte>, P: Program, m: Method, i: nat)
    requires Ready(code, P, m, i)
    ensures AllSupported(P.codes) && Supported(P.codes[m.first + i])
  {
    hide Supported; hide Cut; hide Need; hide CaseNeed; hide Instruction; hide Stands; hide OperandBytes; hide SwitchesBefore;
  }

  /** The opcode itself, and the aload_0 in front of it. */
  lemma HeadReads(code: seq<byte>, P: Program, m: Method, i: nat)
    requires Ready(code, P, m, i)
    ensures var op := P.codes[m.first + i];
      var at := Offset(P, m.first, i);
      && JavaPlace(P, m, i) < |code| && code[JavaPlace(P, m, i)] == JavaOpcode(op)
      && JavaPlace(P, m, i) + 1 == at + |OpcodeBytes(op)|
      && (WithThis(op) ==> at < |code| && code[at] == ALOAD_0)
  {
    hide Supported; hide Delivered; hide Offset; hide OperandBytes; hide OpcodeBytes; hide JavaOpcode; hide WithThis;
    ReadyFacts(code, P, m, i);
    OpcodesAre(P.codes[m.first + i]);
    var at := Offset(P, m.first, i);
    var s := Instruction(P, m, i).bytes;
    var h := OpcodeBytes(P.codes[m.first + i]);
    assert |h| <= |s| && s[0] == h[0] && s[|h| - 1] == h[|h| - 1];
    assert code[at..at + |s|][0] == s[0] && code[at..at + |s|][|h| - 1] == s[|h| - 1];
  }

  /** What stands behind the opcode is what the operands say. */
  lemma OctetReads(code: seq<byte>, P: Program, m: Method, i: nat, x: nat)
    requires Ready(code, P, m, i) && x < |OperandBytes(P, m, i).bytes|
    ensures Octet(code, JavaPlace(P, m, i) + 1 + x) == OperandBytes(P, m, i).bytes[x]
  {
    hide Supported; hide Delivered; hide Offset; hide OperandBytes; hide OpcodeBytes; hide JavaOpcode; hide WithThis; hide Instruction;
    hide JavaPlace; hide Stands;
    HeadReads(code, P, m, i);
    OperandAt(code, P, m, i, x);
  }

  lemma LocalSmall(P: Program, m: Method, i: nat)
    requires MethodIn(P, m) && i < m.length && OperandBytes(P, m, i).Code? && Unsigned(P.operands)
    requires IsLocal(P.codes[m.first + i]) || IsIncrement(P.codes[m.first + i])
    ensures 0 <= Arg(P, m.first + i, Locals, 0) <= 0xff
  {
    hide Need;
  }

  /** Operands that are numbers. */
  lemma NumbersDecode(code: seq<byte>, P: Program, m: Method, c: nat, i: nat, relocations: seq<Relocation>)
    requires Ready(code, P, m, i) && !HasConstant(P.codes[m.first + i]) && !IsLabel(P.codes[m.first + i]) && !IsSwitch(P.codes[m.first + i])
    ensures JavaPlace(P, m, i) < |code| && Decoded(code, c, JavaPlace(P, m, i), relocations) == Some(Meaning(P, m, i))
  {
    hide Delivered; hide Offset; hide Instruction; hide Stands; hide JavaPlace; hide Arg; hide Next; hide BigEndian; hide Octet;
    hide FormOf; hide JavaOpcode;
    var g := m.first + i;
    var op := P.codes[g];
    ReadyFacts(code, P, m, i);
    HeadReads(code, P, m, i);
    FormIs(op);
    NextIs(P, g, Bytes, 0);
    NextIs(P, g, Shorts, 0);
    NextIs(P, g, Locals, 0);
    if IsByte(op) {
      OctetReads(code, P, m, i, 0);
      OneOctet(Arg(P, g, Bytes, 0));
    } else if IsShort(op) {
      OctetReads(code, P, m, i, 0);
      OctetReads(code, P, m, i, 1);
      TwoOctets(Arg(P, g, Shorts, 0));
    } else if IsLocal(op) {
      LocalSmall(P, m, i);
      OctetReads(code, P, m, i, 0);
      OneOctet(Arg(P, g, Locals, 0));
    } else if IsIncrement(op) {
      LocalSmall(P, m, i);
      OctetReads(code, P, m, i, 0);
      OctetReads(code, P, m, i, 1);
      OneOctet(Arg(P, g, Locals, 0));
      OneOctet(Arg(P, g, Bytes, 0));
    }
  }

  lemma PlaceIs(P: Program, m: Method, i: nat, distance: int)
    requires MethodIn(P, m)
    ensures TargetOf(P, m, i, distance) == Landing(P, m, i + distance)
  {
  }

  /** A branch. */
  lemma BranchDecodes(code: seq<byte>, P: Program, m: Method, c: nat, i: nat, relocations: seq<Relocation>)
    requires Ready(code, P, m, i) && IsLabel(P.codes[m.first + i])
    ensures JavaPlace(P, m, i) < |code| && Decoded(code, c, JavaPlace(P, m, i), relocations) == Some(Meaning(P, m, i))
  {
    hide Delivered; hide Offset; hide Instruction; hide Stands; hide Arg; hide Next; hide BigEndian; hide Read; hide OperandBytes;
    hide Landing; hide TargetOf; hide Landings;
    var g := m.first + i;
    var at := Offset(P, m.first, i);
    ReadyFacts(code, P, m, i);
    HeadReads(code, P, m, i);
    NextIs(P, g, Labels, 0);
    BranchTargets(code, P, m, i);
    OneLanding(P, m, i);
    PlaceIs(P, m, i, Arg(P, g, Labels, 0));
    assert Targets(code, at)[0] == Landing(P, m, i + Arg(P, g, Labels, 0));
  }

  lemma {:induction false} LandingsAt(P: Program, m: Method, i: nat, n: nat, j: nat)
    requires MethodIn(P, m) && i < m.length && j < n
    ensures |Landings(P, m, i, n)| == n && Landings(P, m, i, n)[j] == Landing(P, m, i + Arg(P, m.first + i, Labels, j))
    decreases n
  {
    hide Landing; hide Arg;
    if j < n - 1 {
      LandingsAt(P, m, i, n - 1, j);
    } else if n > 1 {
      LandingsAt(P, m, i, n - 1, 0);
    }
  }

  /** The targets of a switch, one by one. */
  function PlacesOf(P: Program, m: Method, i: nat): (r: seq<int>)
    requires MethodIn(P, m) && i < m.length
  {
    var g := m.first + i;
    seq(CasesOf(P, g) + 1, j => TargetOf(P, m, i, Next(P, g, Labels, if j >= 0 then j else 0)))
  }

  function ValuesOf(P: Program, g: nat): seq<int>
    requires g < |P.codes|
  {
    if JavaOpcode(P.codes[g]) == TABLESWITCH then [NextValue(P, g, 0)]
    else seq(CasesOf(P, g), j => NextValue(P, g, if j >= 0 then j else 0))
  }

  lemma PlacesAre(P: Program, m: Method, i: nat)
    requires MethodIn(P, m) && i < m.length && AllSupported(P.codes)
    ensures PlacesOf(P, m, i) == Landings(P, m, i, CasesOf(P, m.first + i) + 1)
  {
    hide Landing; hide Arg; hide Next; hide Landings; hide TargetOf; hide CasesOf; hide Supported;
    var g := m.first + i;
    var n := CasesOf(P, g) + 1;
    LandingsAt(P, m, i, n, 0);
    forall j: nat | j < n
      ensures PlacesOf(P, m, i)[j] == Landings(P, m, i, n)[j]
    {
      LandingsAt(P, m, i, n, j);
      NextIs(P, g, Labels, j);
      PlaceIs(P, m, i, Arg(P, g, Labels, j));
    }
  }

  lemma ValuesRead(code: seq<byte>, P: Program, m: Method, i: nat)
    requires Ready(code, P, m, i) && IsSwitch(P.codes[m.first + i])
    requires var at := Offset(P, m.first, i); at < |code| && code[at] == P.codes[m.first + i]
    ensures SwitchValues(code, Offset(P, m.first, i), CasesOf(P, m.first + i)) == ValuesOf(P, m.first + i)
  {
    hide Delivered; hide Offset; hide Instruction; hide Stands; hide Arg; hide NextValue; hide BigEndian; hide Read; hide OperandBytes;
    hide CasesOf; hide CaseCount; hide CaseValue; hide SwitchBase;
    var g := m.first + i;
    ReadyFacts(code, P, m, i);
    CasesAre(P, g);
    if P.codes[g] == 170 {
      MatchesRead(code, P, m, i, 0);
      NextIs(P, g, Labels, 0);
    } else {
      forall j: nat | j < CasesOf(P, g)
        ensures SwitchValues(code, Offset(P, m.first, i), CasesOf(P, g))[j] == ValuesOf(P, g)[j]
      {
        MatchesRead(code, P, m, i, j);
        NextIs(P, g, Labels, j);
      }
    }
  }

  lemma SwitchIsForm(op: byte)
    requires IsSwitch(op)
    ensures FormOf(op) == SwitchForm && JavaOpcode(op) == op && !WithThis(op)
  {
  }

  /** A switch. */
  lemma SwitchDecodes(code: seq<byte>, P: Program, m: Method, c: nat, i: nat, relocations: seq<Relocation>)
    requires Ready(code, P, m, i) && IsSwitch(P.codes[m.first + i])
    ensures JavaPlace(P, m, i) < |code| && Decoded(code, c, JavaPlace(P, m, i), relocations) == Some(Meaning(P, m, i))
  {
    hide Delivered; hide Offset; hide Instruction; hide Stands; hide OperandBytes; hide Landings; hide Targets; hide SwitchValues;
    hide FormOf; hide JavaOpcode; hide WithThis; hide CaseCount; hide CasesOf; hide Next; hide NextValue; hide TargetOf;
    var g := m.first + i;
    ReadyFacts(code, P, m, i);
    HeadReads(code, P, m, i);
    SwitchIsForm(P.codes[g]);
    SwitchTargets(code, P, m, i);
    CasesAre(P, g);
    PlacesAre(P, m, i);
    ValuesRead(code, P, m, i);
    assert |PlacesOf(P, m, i)| == CasesOf(P, g) + 1;
    assert Meaning(P, m, i) == Switch(P.codes[g], PlacesOf(P, m, i), ValuesOf(P, g));
  }

  /** The relocation of an opcode with a constant. */
  lemma ConstantNoted(P: Program, c: nat, i: nat)
    requires c < |P.methods| && MethodIn(P, P.methods[c]) && i < P.methods[c].length && AllSupported(P.codes)
    requires HasConstant(P.codes[P.methods[c].first + i])
    ensures var m := P.methods[c];
      var g := m.first + i;
      var op := P.codes[g];
      Relocations(P, c, i) == [Relocation(c, JavaPlace(P, m, i) + 1, Next(P, g, SourceOf(op).0, 0), SourceOf(op).1,
                                          FormOf(JavaOpcode(op)).width)]
  {
    hide Offset; hide Arg; hide Next; hide Supported; hide OpcodeBytes; hide SourceOf; hide FormOf; hide JavaOpcode; hide WithThis;
    hide ReferenceBand; hide ReferenceKindOf; hide ReferenceWidth;
    var m := P.methods[c];
    var op := P.codes[m.first + i];
    OpcodesAre(op);
    SourceIs(op);
    FormIs(op);
    ConstantFormIs(op);
    NextIs(P, m.first + i, SourceOf(op).0, 0);
  }

  /** The operands of an opcode with a constant. */
  lemma ConstantOperands(P: Program, m: Method, i: nat)
    requires MethodIn(P, m) && i < m.length && Supported(P.codes[m.first + i]) && HasConstant(P.codes[m.first + i])
    ensures FormOf(JavaOpcode(P.codes[m.first + i])).ConstantForm? && OperandBytes(P, m, i).Code?
    ensures var f := FormOf(JavaOpcode(P.codes[m.first + i]));
      var b := OperandBytes(P, m, i).bytes;
      && 1 <= f.width <= 2 && f.width <= |b| && b[0] == 0 && (f.width == 2 ==> b[1] == 0)
      && (f.tail == TwoZeros ==> f.width == 2 && |b| == 4 && b[2] == 0 && b[3] == 0)
      && (f.tail == Dimensions ==> f.width == 2 && |b| == 3 && b[2] == Arg(P, m.first + i, Bytes, 0) % 0x100)
  {
    hide Arg; hide FormOf; hide JavaOpcode; hide Jump; hide SwitchBytes; hide BigEndian;
    var op := P.codes[m.first + i];
    FormIs(op);
    ConstantFormIs(op);
    OneOctet(Arg(P, m.first + i, Bytes, 0));
  }

  lemma ConstantDecodes(code: seq<byte>, P: Program, c: nat, i: nat, rest: seq<Relocation>)
    requires c < |P.methods| && Ready(code, P, P.methods[c], i) && HasConstant(P.codes[P.methods[c].first + i])
    ensures var m := P.methods[c];
      && JavaPlace(P, m, i) < |code|
      && Decoded(code, c, JavaPlace(P, m, i), Relocations(P, c, i) + rest) == Some(Meaning(P, m, i)) && Meaning(P, m, i).Constant?
  {
    hide Delivered; hide Offset; hide Instruction; hide Stands; hide JavaPlace; hide Arg; hide Next; hide BigEndian; hide Octet;
    hide FormOf; hide JavaOpcode; hide SourceOf; hide Relocations; hide OperandBytes;
    var m := P.methods[c];
    var g := m.first + i;
    ReadyFacts(code, P, m, i);
    HeadReads(code, P, m, i);
    ConstantNoted(P, c, i);
    ConstantOperands(P, m, i);
    NextIs(P, g, Bytes, 0);
    var b := OperandBytes(P, m, i).bytes;
    OctetReads(code, P, m, i, 0);
    if |b| > 1 { OctetReads(code, P, m, i, 1); }
    if |b| > 2 { OctetReads(code, P, m, i, 2); }
    if |b| > 3 { OctetReads(code, P, m, i, 3); }
    assert (Relocations(P, c, i) + rest)[0] == Relocations(P, c, i)[0];
  }

  /** One instruction of either kind: what it reads as, and the relocations it leaves. */
  lemma InstructionDecodes(code: seq<byte>, P: Program, c: nat, i: nat, rest: seq<Relocation>)
    requires c < |P.methods| && Ready(code, P, P.methods[c], i)
    ensures var m := P.methods[c];
      var all := Relocations(P, c, i) + rest;
      && JavaPlace(P, m, i) < |code| && Decoded(code, c, JavaPlace(P, m, i), all) == Some(Meaning(P, m, i))
      && (Meaning(P, m, i).Constant? ==> all != [] && all[1..] == rest) && (!Meaning(P, m, i).Constant? ==> all == rest)
  {
    hide Decoded; hide JavaPlace; hide Offset; hide Arg; hide Next; hide Instruction; hide Stands; hide OperandBytes;
    hide Supported; hide Delivered;
    var m := P.methods[c];
    var op := P.codes[m.first + i];
    ReadyFacts(code, P, m, i);
    if HasConstant(op) {
      ConstantDecodes(code, P, c, i, rest);
      ConstantNoted(P, c, i);
    } else {
      NoRelocation(P, c, i);
      NoConstant(P, m, i);
      assert [] + rest == rest;
      if IsLabel(op) {
        BranchDecodes(code, P, m, c, i, rest);
      } else if IsSwitch(op) {
        SwitchDecodes(code, P, m, c, i, rest);
      } else {
        NumbersDecode(code, P, m, c, i, rest);
      }
    }
  }

  lemma NoRelocation(P: Program, c: nat, i: nat)
    requires c < |P.methods| && MethodIn(P, P.methods[c]) && i < P.methods[c].length && !HasConstant(P.codes[P.methods[c].first + i])
    ensures Relocations(P, c, i) == []
  {
  }

  lemma NoConstant(P: Program, m: Method, i: nat)
    requires MethodIn(P, m) && i < m.length && Supported(P.codes[m.first + i]) && !HasConstant(P.codes[m.first + i])
    ensures !Meaning(P, m, i).Constant?
  {
    hide FormOf; hide JavaOpcode; hide Next; hide TargetOf; hide CasesOf; hide NextValue;
    FormIs(P.codes[m.first + i]);
  }

  //
  // Whole methods
  //

  /** The relocations of a method from instruction i on. */
  function RelocationsFrom(P: Program, c: nat, i: nat): seq<Relocation>
    requires c < |P.methods| && MethodIn(P, P.methods[c]) && i <= P.methods[c].length
    decreases P.methods[c].length - i
  {
    if i == P.methods[c].length then [] else Relocations(P, c, i) + RelocationsFrom(P, c, i + 1)
  }

  lemma {:induction false} RelocationsJoin(P: Program, c: nat, i: nat)
    requires c < |P.methods| && MethodIn(P, P.methods[c]) && i <= P.methods[c].length
    ensures MethodRelocations(P, c, P.methods[c].length) == MethodRelocations(P, c, i) + RelocationsFrom(P, c, i)
    decreases P.methods[c].length - i
  {
    hide Relocations;
    if i < P.methods[c].length {
      RelocationsJoin(P, c, i + 1);
      Group(MethodRelocations(P, c, i), Relocations(P, c, i), RelocationsFrom(P, c, i + 1));
    }
  }

  lemma Group(a: seq<Relocation>, b: seq<Relocation>, d: seq<Relocation>)
    ensures a + b + d == a + (b + d)
  {
  }

  /** The lengths the virtual machine finds at instruction i. */
  lemma LengthsRead(code: seq<byte>, P: Program, m: Method, i: nat)
    requires Assembled(code, P, m) && i < m.length
    ensures var at, next := Offset(P, m.first, i), Offset(P, m.first, i + 1);
      && at < next <= |code|
      && (if WithThis(P.codes[m.first + i]) then
            next == at + 4 && JavaLength(code, at) == Some(1) && at + 1 < |code| && JavaLength(code, at + 1) == Some(3)
          else JavaLength(code, at) == Some(next - at))
  {
    hide Offset; hide JavaLength; hide Instruction; hide Stands; hide Supported; hide CaseCount; hide Length; hide OperandBytes;
    hide Assembled; hide WithThis; hide Delivered;
    DeliveredOf(code, P, m);
    AssembledStands(code, P, m, i);
    OpcodesAre(P.codes[m.first + i]);
    if IsSwitch(P.codes[m.first + i]) {
      SwitchLengthRead(code, P, m, i);
      SwitchIsForm(P.codes[m.first + i]);
    } else {
      SimpleLengthRead(code, P, m, i);
    }
  }

  /** One step of the listing, and two where aload_0 comes first. */
  lemma ListingStep(code: seq<byte>, c: nat, pos: nat, n: nat, relocations: seq<Relocation>, insn: Insn, rest: seq<Relocation>,
                    more: seq<(nat, Insn)>, left: seq<Relocation>)
    requires pos < |code| && JavaLength(code, pos) == Some(n) && Decoded(code, c, pos, relocations) == Some(insn)
    requires rest == if insn.Constant? && relocations != [] then relocations[1..] else relocations
    requires insn.Constant? ==> relocations != []
    requires Listing(code, c, pos + n, rest) == Some((more, left))
    ensures Listing(code, c, pos, relocations) == Some(([(pos, insn)] + more, left))
  {
    hide JavaLength; hide Decoded;
  }

  lemma LoadsThis(code: seq<byte>, c: nat, pos: nat, relocations: seq<Relocation>)
    requires pos < |code| && code[pos] == ALOAD_0
    ensures Decoded(code, c, pos, relocations) == Some(Simple(ALOAD_0))
  {
    hide Targets; hide Read; hide Octet;
  }

  /**
   * From instruction i on a method lists the instructions its packed opcodes name, and takes its relocations,
   * in order, leaving those of later methods.
   */
  lemma {:induction false} MethodListed(code: seq<byte>, P: Program, c: nat, i: nat, left: seq<Relocation>)
    requires c < |P.methods| && Assembled(code, P, P.methods[c]) && Unsigned(P.operands) && i <= P.methods[c].length
    ensures Listing(code, c, Offset(P, P.methods[c].first, i), RelocationsFrom(P, c, i) + left)
         == Some((Meanings(P, P.methods[c], i), left))
    decreases P.methods[c].length - i
  {
    hide Offset; hide JavaLength; hide Instruction; hide Stands; hide Supported; hide OperandBytes; hide Assembled; hide Unsigned;
    hide Decoded; hide Meaning; hide Relocations; hide WithThis; hide Delivered; hide Listing; hide OpcodeBytes; hide JavaOpcode;
    var m := P.methods[c];
    DeliveredOf(code, P, m);
    if i == m.length {
      AssembledLength(code, P, m);
      assert [] + left == left;
      ListingEnds(code, c, left);
    } else {
      var at := Offset(P, m.first, i);
      var after := RelocationsFrom(P, c, i + 1) + left;
      var all := RelocationsFrom(P, c, i) + left;
      MethodListed(code, P, c, i + 1, left);
      AssembledStands(code, P, m, i);
      LengthsRead(code, P, m, i);
      HeadReads(code, P, m, i);
      InstructionDecodes(code, P, c, i, after);
      Group(Relocations(P, c, i), RelocationsFrom(P, c, i + 1), left);
      var insn, more := Meaning(P, m, i), Meanings(P, m, i + 1);
      if WithThis(P.codes[m.first + i]) {
        ListingStep(code, c, at + 1, 3, all, insn, after, more, left);
        LoadsThis(code, c, at, all);
        ListingStep(code, c, at, 1, all, Simple(ALOAD_0), all, [(at + 1, insn)] + more, left);
        assert [(at, Simple(ALOAD_0))] + ([(at + 1, insn)] + more) == Meanings(P, m, i);
      } else {
        ListingStep(code, c, at, Offset(P, m.first, i + 1) - at, all, insn, after, more, left);
      }
    }
  }

  lemma ListingEnds(code: seq<byte>, c: nat, relocations: seq<Relocation>)
    ensures Listing(code, c, |code|, relocations) == Some(([], relocations))
  {
  }

  //
  // Whole programs
  //

  /** The relocations of the methods from c on. */
  ghost function RelocationsAfter(P: Program, c: nat): seq<Relocation>
    requires Cut(P) && c <= |P.methods|
    decreases |P.methods| - c
  {
    if c == |P.methods| then [] else assert MethodOk(P, c); MethodRelocations(P, c, P.methods[c].length) + RelocationsAfter(P, c + 1)
  }

  lemma {:induction false} AllJoin(P: Program, c: nat)
    requires Cut(P) && c <= |P.methods|
    ensures AllRelocations(P, |P.methods|) == AllRelocations(P, c) + RelocationsAfter(P, c)
    decreases |P.methods| - c
  {
    hide MethodRelocations; hide Cut;
    if c < |P.methods| {
      CutMethod(P, c);
      AllJoin(P, c + 1);
      Group(AllRelocations(P, c), MethodRelocations(P, c, P.methods[c].length), RelocationsAfter(P, c + 1));
    }
  }

  /** The listings of the methods from c on, each in its slice of the code, one relocation after the other. */
  ghost function Listings(code: seq<byte>, offsets: seq<nat>, lengths: seq<nat>, c: nat, relocations: seq<Relocation>)
    : Option<seq<seq<(nat, Insn)>>>
    requires |offsets| == |lengths| && c <= |offsets|
    decreases |offsets| - c
  {
    if c == |offsets| then (if relocations == [] then Some([]) else None)
    else if offsets[c] + lengths[c] > |code| then None
    else
      match Listing(code[offsets[c]..offsets[c] + lengths[c]], c, 0, relocations)
      case None => None
      case Some(one) =>
        match Listings(code, offsets, lengths, c + 1, one.1)
        case None => None
        case Some(rest) => Some([one.0] + rest)
  }

  /** What the methods from c on say. */
  ghost function AllMeanings(P: Program, c: nat): seq<seq<(nat, Insn)>>
    requires Cut(P) && c <= |P.methods|
    decreases |P.methods| - c
  {
    if c == |P.methods| then [] else assert MethodOk(P, c); [Meanings(P, P.methods[c], 0)] + AllMeanings(P, c + 1)
  }
}
