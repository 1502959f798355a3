// The emitted code as a Java virtual machine reads it (Java Virtual Machine Specification, section
// 6.5): walking from instruction to instruction meets exactly the recorded offsets, and every jump
// and switch leads to the instruction its label named.
module JavaCode {
  import opened Common
  import opened PackedCode
  import opened PackedFacts

  //
  // The virtual machine's view of a method's code
  //

  /** The signed big-endian number at a position. */
  function Read(code: seq<byte>, at: nat, width: nat): int {
    if at + width <= |code| then SignedBigEndian(code[at..at + width]) else 0
  }

  /** The first operand of a switch lies on the next multiple of four. */
  function SwitchBase(pos: nat): (r: nat)
    ensures pos < r <= pos + 4 && r % 4 == 0
  {
    pos + 4 - pos % 4
  }

  /** The number of cases of the switch at pos: high minus low plus one, or the pair count. */
  function SwitchCases(code: seq<byte>, pos: nat): int
    requires pos < |code|
  {
    if code[pos] == 170 then Read(code, SwitchBase(pos) + 8, 4) - Read(code, SwitchBase(pos) + 4, 4) + 1
    else Read(code, SwitchBase(pos) + 4, 4)
  }

  /** The length of the instruction at pos; None for an undefined opcode or a malformed switch. */
  function JavaLength(code: seq<byte>, pos: nat): (r: Option<nat>)
    requires pos < |code|
    ensures r.Some? ==> r.value > 0
  {
    var op := code[pos];
    if op == 170 then
      var n := SwitchCases(code, pos);
      if n < 0 then None else Some(SwitchBase(pos) + 12 + 4 * n - pos)
    else if op == 171 then
      var n := SwitchCases(code, pos);
      if n < 0 then None else Some(SwitchBase(pos) + 8 + 8 * n - pos)
    else if op <= 15 || 26 <= op <= 53 || 59 <= op <= 131 || 133 <= op <= 152 || 172 <= op <= 177
            || op == 190 || op == 191 || op == 194 || op == 195 then Some(1)
    else if op == 16 || op == 18 || 21 <= op <= 25 || 54 <= op <= 58 || op == 169 || op == 188 then Some(2)
    else if op == 17 || op == 19 || op == 20 || op == 132 || 153 <= op <= 168 || 178 <= op <= 184
            || op == 187 || op == 189 || op == 192 || op == 193 || op == 198 || op == 199 then Some(3)
    else if op == 197 then Some(4)
    else if op == 185 || op == 186 || op == 200 || op == 201 then Some(5)
    else if op == 196 then Some(if pos + 1 < |code| && code[pos + 1] == 132 then 6 else 4)
    else None
  }

  /** Where the instructions from pos on begin; None when they do not end with the code. */
  function Boundaries(code: seq<byte>, pos: nat): Option<seq<nat>>
    decreases |code| - pos
  {
    if pos >= |code| then (if pos == |code| then Some([]) else None)
    else
      match JavaLength(code, pos)
      case None => None
      case Some(n) =>
        match Boundaries(code, pos + n)
        case None => None
        case Some(rest) => Some([pos] + rest)
  }

  /** The targets of n consecutive displacements, `stride` bytes apart. */
  function CaseTargets(code: seq<byte>, pos: nat, from: nat, stride: nat, n: nat): seq<int> {
    if n == 0 then [] else CaseTargets(code, pos, from, stride, n - 1) + [pos + Read(code, from + stride * (n - 1), 4)]
  }

  /** Every position the instruction at pos may continue at other than the next one. */
  function Targets(code: seq<byte>, pos: nat): seq<int>
    requires pos < |code|
  {
    var op := code[pos];
    if op == 170 || op == 171 then
      var n := SwitchCases(code, pos);
      var base := SwitchBase(pos);
      [pos + Read(code, base, 4)] +
      if n < 0 then []
      else if op == 170 then CaseTargets(code, pos, base + 12, 4, n) else CaseTargets(code, pos, base + 12, 8, n)
    else if op == 200 || op == 201 then [pos + Read(code, pos + 1, 4)]
    else if 153 <= op <= 168 || op == 198 || op == 199 then [pos + Read(code, pos + 1, 2)]
    else []
  }

  //
  // The assembler's view
  //

  predicate Combined(op: byte) {
    213 <= op <= 215 || 227 <= op <= 229
  }

  /** The recorded offsets from instruction i on; an opcode that stands for two has two. */
  function Marks(P: Program, m: Method, i: nat): seq<nat>
    requires MethodIn(P, m) && i <= m.length
    decreases m.length - i
  {
    if i == m.length then []
    else
      [Offset(P, m.first, i)] + (if Combined(P.codes[m.first + i]) then [Offset(P, m.first, i) + 1] else [])
        + Marks(P, m, i + 1)
  }

  /** Where the instruction with index t of the method begins. */
  function Landing(P: Program, m: Method, t: int): int
    requires MethodIn(P, m)
  {
    if 0 <= t < m.length then Offset(P, m.first, t) else -1
  }

  /** The instructions the first n labels of instruction i name. */
  function Landings(P: Program, m: Method, i: nat, n: nat): seq<int>
    requires MethodIn(P, m) && i < m.length
  {
    if n == 0 then [] else Landings(P, m, i, n - 1) + [Landing(P, m, i + Arg(P, m.first + i, Labels, n - 1))]
  }

  //
  // Reading back
  //

  lemma SliceOfSlice(code: seq<byte>, at: nat, n: nat, x: nat, width: nat)
    requires at + n <= |code| && x + width <= n
    ensures code[at..at + n][x..x + width] == code[at + x..at + x + width]
  {
    var a, b := code[at..at + n][x..x + width], code[at + x..at + x + width];
    forall k | 0 <= k < width
      ensures a[k] == b[k]
    {
      assert a[k] == code[at..at + n][x + k];
    }
    assert a == b;
  }

  lemma ReadInside(code: seq<byte>, at: nat, s: seq<byte>, x: nat, width: nat)
    requires at + |s| <= |code| && code[at..at + |s|] == s && x + width <= |s|
    ensures Read(code, at + x, width) == SignedBigEndian(s[x..x + width])
    ensures |s| > 0 ==> code[at] == s[0]
  {
    SliceOfSlice(code, at, |s|, x, width);
    if |s| > 0 { assert code[at..at + |s|][0] == s[0]; }
  }

  /** An encoded jump, read back and added to its own position, is the position of the labelled instruction. */
  lemma JumpLands(P: Program, m: Method, i: nat, distance: int, width: nat)
    requires MethodIn(P, m) && i < m.length && (width == 2 || width == 4)
    requires Jump(P, m, i, distance, width).Code?
    ensures 0 <= i + distance < m.length
    ensures Offset(P, m.first, i) + SignedBigEndian(Jump(P, m, i, distance, width).bytes) == Landing(P, m, i + distance)
  {
    hide Offset; hide BigEndian; hide SignedBigEndian;
    var d := Offset(P, m.first, i + distance) - Offset(P, m.first, i);
    if width == 2 { BigEndian2RoundTrip(d); } else { BigEndian4RoundTrip(d); }
  }

  /** Case j of an encoded switch. */
  lemma {:induction false} CaseStands(P: Program, m: Method, i: nat, j: nat, n: nat)
    requires MethodIn(P, m) && i < m.length && IsSwitch(P.codes[m.first + i]) && j < n && Cases(P, m, i, n).Code?
    ensures var table := P.codes[m.first + i] == 170;
      var u := if table then 4 else 8;
      var s := Cases(P, m, i, n).bytes;
      && Jump(P, m, i, Arg(P, m.first + i, Labels, j + 1), 4).Code?
      && u * j + u <= |s|
      && s[u * j + (u - 4)..u * j + u] == Jump(P, m, i, Arg(P, m.first + i, Labels, j + 1), 4).bytes
      && (!table ==> s[u * j..u * j + 4] == BigEndian(CaseValue(P, m.first + i, j), 4))
    decreases n
  {
    hide Jump; hide BigEndian; hide Arg; hide CaseValue; hide Cases;
    var g := m.first + i;
    var u := if P.codes[g] == 170 then 4 else 8;
    CaseLast(P, m, i, n);
    CasesLength(P, m, i, n - 1);
    JumpLength(P, m, i, Arg(P, g, Labels, n), 4);
    var before := Cases(P, m, i, n - 1).bytes;
    var value := if P.codes[g] == 171 then BigEndian(CaseValue(P, g, n - 1), 4) else [];
    var jump := Jump(P, m, i, Arg(P, g, Labels, n), 4).bytes;
    if j < n - 1 {
      CaseStands(P, m, i, j, n - 1);
      KeepsSlice(before, value + jump, u * j + (u - 4), u * j + u);
      KeepsSlice(before, value + jump, u * j, u * j + 4);
    } else {
      assert |before| == u * j;
      AddsSlices(before, value, jump);
    }
  }

  lemma CaseLast(P: Program, m: Method, i: nat, n: nat)
    requires MethodIn(P, m) && i < m.length && 0 < n && Cases(P, m, i, n).Code?
    ensures Cases(P, m, i, n - 1).Code? && Jump(P, m, i, Arg(P, m.first + i, Labels, n), 4).Code?
    ensures Cases(P, m, i, n).bytes == Cases(P, m, i, n - 1).bytes
              + ((if P.codes[m.first + i] == 171 then BigEndian(CaseValue(P, m.first + i, n - 1), 4) else [])
                 + Jump(P, m, i, Arg(P, m.first + i, Labels, n), 4).bytes)
  {
    hide Jump; hide BigEndian; hide Arg; hide CaseValue;
    Regroup(Cases(P, m, i, n - 1).bytes,
            if P.codes[m.first + i] == 171 then BigEndian(CaseValue(P, m.first + i, n - 1), 4) else [],
            Jump(P, m, i, Arg(P, m.first + i, Labels, n), 4).bytes);
  }

  lemma Regroup(a: seq<byte>, b: seq<byte>, c: seq<byte>)
    ensures (a + b) + c == a + (b + c)
  {
  }

  lemma KeepsSlice(a: seq<byte>, b: seq<byte>, lo: nat, hi: nat)
    requires lo <= hi <= |a|
    ensures (a + b)[lo..hi] == a[lo..hi]
  {
  }

  lemma AddsSlices(a: seq<byte>, b: seq<byte>, c: seq<byte>)
    ensures (a + (b + c))[|a|..|a| + |b|] == b && (a + (b + c))[|a| + |b|..|a| + |b| + |c|] == c
  {
  }

  /** The fields of an encoded switch, counted from its opcode. */
  lemma SwitchFields(P: Program, m: Method, i: nat)
    requires MethodIn(P, m) && i < m.length && IsSwitch(P.codes[m.first + i]) && Instruction(P, m, i).Code?
    ensures SwitchBytes(P, m, i).Code?
    ensures var g := m.first + i;
      var s := Instruction(P, m, i).bytes;
      var b := 1 + Padding(Offset(P, m.first, i));
      var table := P.codes[g] == 170;
      var low := CaseValue(P, g, 0);
      var u := if table then b + 12 else b + 8;
      && u <= |s| && s[0] == P.codes[g]
      && Jump(P, m, i, Arg(P, g, Labels, 0), 4).Code? && s[b..b + 4] == Jump(P, m, i, Arg(P, g, Labels, 0), 4).bytes
      && (table ==> s[b + 4..b + 8] == BigEndian(low, 4) && s[b + 8..b + 12] == BigEndian(low + CaseCount(P, g) - 1, 4))
      && (!table ==> s[b + 4..b + 8] == BigEndian(CaseCount(P, g), 4))
      && Cases(P, m, i, CaseCount(P, g)).Code? && s[u..] == Cases(P, m, i, CaseCount(P, g)).bytes
  {
    hide Jump; hide Cases; hide Offset; hide SwitchBytes; hide CaseValue; hide Arg; hide CaseCount; hide BigEndian; hide Padding;
    var g := m.first + i;
    SwitchParts(P, m, i);
    JumpLength(P, m, i, Arg(P, g, Labels, 0), 4);
    assert Instruction(P, m, i).bytes == [P.codes[g]] + SwitchBytes(P, m, i).bytes;
  }

  /** The code of instruction i stands at position `at` of `code`. */
  predicate Stands(code: seq<byte>, P: Program, m: Method, i: nat)
    requires MethodIn(P, m) && i < m.length && Instruction(P, m, i).Code?
  {
    var s := Instruction(P, m, i).bytes;
    var at := Offset(P, m.first, i);
    at + |s| <= |code| && code[at..at + |s|] == s
  }

  lemma BaseIsPadded(at: nat)
    ensures SwitchBase(at) == at + 1 + Padding(at)
  {
  }

  /** The virtual machine finds the number of cases the bands gave. */
  lemma CountRead(code: seq<byte>, P: Program, m: Method, i: nat)
    requires Delivered(P) && MethodIn(P, m) && i < m.length && IsSwitch(P.codes[m.first + i]) && Instruction(P, m, i).Code?
    requires Stands(code, P, m, i)
    ensures var at := Offset(P, m.first, i);
      at < |code| && code[at] == P.codes[m.first + i] && SwitchCases(code, at) == CaseCount(P, m.first + i)
  {
    hide Jump; hide Cases; hide Offset; hide BigEndian; hide Instruction; hide SignedBigEndian; hide Read;
    hide SwitchBytes; hide Arg; hide Bounds;
    hide CaseCount; hide CaseValue; hide Delivered; hide Padding;
    var g := m.first + i;
    var at := Offset(P, m.first, i);
    var s := Instruction(P, m, i).bytes;
    var b := 1 + Padding(at);
    assert SwitchBase(at) == at + b by { BaseIsPadded(at); }
    SwitchFields(P, m, i);
    SwitchParts(P, m, i);
    SwitchInts(P, g);
    ReadInside(code, at, s, b + 4, 4);
    if P.codes[g] == 170 {
      var low := CaseValue(P, g, 0);
      ReadInside(code, at, s, b + 8, 4);
      BigEndian4RoundTrip(low);
      BigEndian4RoundTrip(low + CaseCount(P, g) - 1);
    } else {
      BigEndian4RoundTrip(CaseCount(P, g));
    }
  }

  lemma SwitchInts(P: Program, g: nat)
    requires Delivered(P) && g < |P.codes|
    ensures CaseCount(P, g) < 0x8000_0000 && forall j: nat :: -0x8000_0000 <= CaseValue(P, g, j) < 0x8000_0000
  {
    hide Cut; hide Supported;
  }

  /** So it skips exactly the switch. */
  lemma SwitchLengthRead(code: seq<byte>, P: Program, m: Method, i: nat)
    requires Delivered(P) && MethodIn(P, m) && i < m.length && IsSwitch(P.codes[m.first + i]) && Instruction(P, m, i).Code?
    requires Stands(code, P, m, i)
    ensures var at := Offset(P, m.first, i);
      at < |code| && JavaLength(code, at) == Some(Length(P.codes[m.first + i], at, CaseCount(P, m.first + i)))
  {
    hide Offset; hide Instruction; hide SwitchCases; hide Stands; hide CaseCount; hide Delivered;
    CountRead(code, P, m, i);
  }

  /** One displacement field of an encoded instruction, read at its place. */
  lemma FieldLands(code: seq<byte>, P: Program, m: Method, i: nat, x: nat, distance: int, width: nat)
    requires MethodIn(P, m) && i < m.length && Instruction(P, m, i).Code? && Stands(code, P, m, i)
    requires (width == 2 || width == 4) && Jump(P, m, i, distance, width).Code?
    requires x + width <= |Instruction(P, m, i).bytes|
    requires Instruction(P, m, i).bytes[x..x + width] == Jump(P, m, i, distance, width).bytes
    ensures Offset(P, m.first, i) + Read(code, Offset(P, m.first, i) + x, width) == Landing(P, m, i + distance)
  {
    hide Jump; hide Offset; hide Instruction; hide Read; hide SignedBigEndian; hide Landing;
    ReadInside(code, Offset(P, m.first, i), Instruction(P, m, i).bytes, x, width);
    JumpLands(P, m, i, distance, width);
  }

  lemma {:induction false} CasesLand(code: seq<byte>, P: Program, m: Method, i: nat, n: nat)
    requires MethodIn(P, m) && i < m.length && IsSwitch(P.codes[m.first + i]) && Instruction(P, m, i).Code?
    requires Stands(code, P, m, i) && n <= CaseCount(P, m.first + i)
    ensures var at := Offset(P, m.first, i);
      var stride := if P.codes[m.first + i] == 170 then 4 else 8;
      [Landing(P, m, i + Arg(P, m.first + i, Labels, 0))] + CaseTargets(code, at, SwitchBase(at) + 12, stride, n)
        == Landings(P, m, i, n + 1)
    decreases n
  {
    hide Jump; hide Cases; hide Offset; hide BigEndian; hide Instruction; hide Read; hide SwitchBytes; hide Arg; hide CaseCount;
    hide CaseValue; hide Landing; hide Stands;
    var g := m.first + i;
    var at := Offset(P, m.first, i);
    if n == 0 {
      assert Landings(P, m, i, 1) == Landings(P, m, i, 0) + [Landing(P, m, i + Arg(P, g, Labels, 0))];
    } else {
      CasesLand(code, P, m, i, n - 1);
      var j := n - 1;
      var s := Instruction(P, m, i).bytes;
      var u := if P.codes[g] == 170 then 1 + Padding(at) + 12 else 1 + Padding(at) + 8;
      var stride := if P.codes[g] == 170 then 4 else 8;
      SwitchFields(P, m, i);
      CaseStands(P, m, i, j, CaseCount(P, g));
      var cases := Cases(P, m, i, CaseCount(P, g)).bytes;
      var x := u + stride * j + (stride - 4);
      SliceOfSlice(s, u, |cases|, stride * j + (stride - 4), 4);
      assert s[u..u + |cases|] == cases;
      FieldLands(code, P, m, i, x, Arg(P, g, Labels, n), 4);
      assert at + x == SwitchBase(at) + 12 + stride * j;
    }
  }

  /** Every way out of a switch leads where its labels say. */
  lemma SwitchTargets(code: seq<byte>, P: Program, m: Method, i: nat)
    requires Delivered(P) && MethodIn(P, m) && i < m.length && IsSwitch(P.codes[m.first + i]) && Instruction(P, m, i).Code?
    requires Stands(code, P, m, i)
    ensures var at := Offset(P, m.first, i);
      at < |code| && Targets(code, at) == Landings(P, m, i, Demand(P, m.first + i, Labels))
  {
    hide Jump; hide Cases; hide Offset; hide BigEndian; hide Instruction; hide Read; hide SwitchBytes; hide Arg; hide CaseCount;
    hide CaseValue; hide Landing; hide Stands; hide Landings; hide CaseTargets; hide SwitchCases; hide Delivered;
    var g := m.first + i;
    CountRead(code, P, m, i);
    SwitchFields(P, m, i);
    FieldLands(code, P, m, i, 1 + Padding(Offset(P, m.first, i)), Arg(P, g, Labels, 0), 4);
    CasesLand(code, P, m, i, CaseCount(P, g));
  }

  /** A branch leads where its label says. */
  lemma BranchTargets(code: seq<byte>, P: Program, m: Method, i: nat)
    requires MethodIn(P, m) && i < m.length && IsLabel(P.codes[m.first + i]) && Instruction(P, m, i).Code?
    requires Stands(code, P, m, i)
    ensures var at := Offset(P, m.first, i);
      at < |code| && Targets(code, at) == Landings(P, m, i, 1)
  {
    hide Jump; hide Offset; hide BigEndian; hide Read; hide Arg; hide Landing; hide SwitchBytes; hide Instruction;
    hide Stands; hide Landings;
    var g := m.first + i;
    var at := Offset(P, m.first, i);
    var s := Instruction(P, m, i).bytes;
    var width := if P.codes[g] == 200 || P.codes[g] == 201 then 4 else 2;
    var jump := Jump(P, m, i, Arg(P, g, Labels, 0), width);
    BranchBytes(P, m, i, width);
    JumpLength(P, m, i, Arg(P, g, Labels, 0), width);
    StandsAt(code, P, m, i);
    ReadInside(code, at, s, 0, 0);
    FieldLands(code, P, m, i, 1, Arg(P, g, Labels, 0), width);
    OneLanding(P, m, i);
  }

  lemma StandsAt(code: seq<byte>, P: Program, m: Method, i: nat)
    requires MethodIn(P, m) && i < m.length && Instruction(P, m, i).Code? && Stands(code, P, m, i)
    ensures Offset(P, m.first, i) + |Instruction(P, m, i).bytes| <= |code|
    ensures code[Offset(P, m.first, i)..Offset(P, m.first, i) + |Instruction(P, m, i).bytes|] == Instruction(P, m, i).bytes
  {
    hide Instruction; hide Offset;
  }

  lemma BranchBytes(P: Program, m: Method, i: nat, width: nat)
    requires MethodIn(P, m) && i < m.length && IsLabel(P.codes[m.first + i]) && Instruction(P, m, i).Code?
    requires width == if P.codes[m.first + i] == 200 || P.codes[m.first + i] == 201 then 4 else 2
    ensures Jump(P, m, i, Arg(P, m.first + i, Labels, 0), width).Code?
    ensures Instruction(P, m, i).bytes == [P.codes[m.first + i]] + Jump(P, m, i, Arg(P, m.first + i, Labels, 0), width).bytes
  {
    hide Jump; hide Offset; hide BigEndian; hide Arg; hide SwitchBytes;
  }

  lemma OneLanding(P: Program, m: Method, i: nat)
    requires MethodIn(P, m) && i < m.length
    ensures Landings(P, m, i, 1) == [Landing(P, m, i + Arg(P, m.first + i, Labels, 0))]
  {
    hide Landing; hide Arg;
    assert Landings(P, m, i, 0) == [];
  }

  /** Any other instruction has one length, whatever follows it. */
  lemma SimpleLengthRead(code: seq<byte>, P: Program, m: Method, i: nat)
    requires MethodIn(P, m) && i < m.length && Supported(P.codes[m.first + i]) && !IsSwitch(P.codes[m.first + i])
    requires Instruction(P, m, i).Code? && Stands(code, P, m, i) && OperandBytes(P, m, i).Code?
    ensures var at := Offset(P, m.first, i);
      var n := Length(P.codes[m.first + i], at, CaseCount(P, m.first + i));
      && at < |code|
      && (if Combined(P.codes[m.first + i]) then
            && n == 4 && JavaLength(code, at) == Some(1)
            && at + 1 < |code| && JavaLength(code, at + 1) == Some(3) && Targets(code, at + 1) == []
          else JavaLength(code, at) == Some(n))
      && (!IsLabel(P.codes[m.first + i]) ==> Targets(code, at) == [])
  {
    hide Offset; hide Read; hide CaseCount; hide SwitchLength; hide OperandBytes; hide SwitchCases; hide Instruction; hide Stands;
    HeadStands(code, P, m, i);
  }

  /** The bytes of the opcode come first. */
  lemma HeadStands(code: seq<byte>, P: Program, m: Method, i: nat)
    requires MethodIn(P, m) && i < m.length && Supported(P.codes[m.first + i]) && !IsSwitch(P.codes[m.first + i])
    requires Instruction(P, m, i).Code? && Stands(code, P, m, i) && OperandBytes(P, m, i).Code?
    ensures var at := Offset(P, m.first, i);
      var head := OpcodeBytes(P.codes[m.first + i]);
      at < |code| && code[at] == head[0] && (|head| > 1 ==> at + 1 < |code| && code[at + 1] == head[1])
  {
    hide Offset; hide OperandBytes; hide OpcodeBytes; hide CaseCount;
    var at := Offset(P, m.first, i);
    var s := Instruction(P, m, i).bytes;
    var head := OpcodeBytes(P.codes[m.first + i]);
    assert s[0] == head[0];
    ReadInside(code, at, s, 0, 0);
    if |head| > 1 {
      assert code[at + 1] == code[at..at + |s|][1] == s[1] == head[1];
    }
  }

  /** The match values of a lookup switch and the low value of a table switch are the case values of the bands. */
  lemma MatchesRead(code: seq<byte>, P: Program, m: Method, i: nat, j: nat)
    requires Delivered(P) && MethodIn(P, m) && i < m.length && IsSwitch(P.codes[m.first + i]) && Instruction(P, m, i).Code?
    requires Stands(code, P, m, i)
    ensures var g := m.first + i;
      var base := SwitchBase(Offset(P, m.first, i));
      && (P.codes[g] == 170 ==> Read(code, base + 4, 4) == CaseValue(P, g, 0))
      && (P.codes[g] == 171 && j < CaseCount(P, g) ==> Read(code, base + 8 + 8 * j, 4) == CaseValue(P, g, j))
  {
    hide Jump; hide Cases; hide Offset; hide BigEndian; hide Instruction; hide SignedBigEndian; hide Read; hide SwitchBytes; hide Arg;
    hide CaseCount; hide CaseValue; hide Delivered; hide Padding; hide Bounds;
    var g := m.first + i;
    var at := Offset(P, m.first, i);
    var s := Instruction(P, m, i).bytes;
    var b := 1 + Padding(at);
    BaseIsPadded(at);
    SwitchFields(P, m, i);
    SwitchInts(P, g);
    StandsAt(code, P, m, i);
    if P.codes[g] == 170 {
      ReadInside(code, at, s, b + 4, 4);
      BigEndian4RoundTrip(CaseValue(P, g, 0));
    } else if j < CaseCount(P, g) {
      CaseStands(P, m, i, j, CaseCount(P, g));
      var cases := Cases(P, m, i, CaseCount(P, g)).bytes;
      assert s[b + 8..b + 8 + |cases|] == cases;
      SliceOfSlice(s, b + 8, |cases|, 8 * j, 4);
      ReadInside(code, at, s, b + 8 + 8 * j, 4);
      BigEndian4RoundTrip(CaseValue(P, g, j));
    }
  }

  /** A method's whole code, as the assembler emits it. */
  ghost predicate Assembled(code: seq<byte>, P: Program, m: Method) {
    Delivered(P) && m in P.methods && MethodIn(P, m) && MethodCode(P, m, m.length) == Code(code)
  }

  lemma AssembledStands(code: seq<byte>, P: Program, m: Method, i: nat)
    requires Assembled(code, P, m) && i < m.length
    ensures Instruction(P, m, i).Code? && Stands(code, P, m, i) && OperandBytes(P, m, i).Code?
    ensures Supported(P.codes[m.first + i])
    ensures Offset(P, m.first, i + 1)
         == Offset(P, m.first, i) + Length(P.codes[m.first + i], Offset(P, m.first, i), CaseCount(P, m.first + i)) <= |code|
  {
    hide OperandBytes; hide Cut; hide Length; hide CaseCount; hide Need; hide CaseNeed; hide MethodCode;
    InstructionStands(P, m, i, m.length);
  }

  /** Walking the emitted code from instruction to instruction meets exactly the recorded offsets. */
  lemma {:induction false} WalkMeetsMarks(code: seq<byte>, P: Program, m: Method, i: nat)
    requires Assembled(code, P, m) && i <= m.length
    ensures Boundaries(code, Offset(P, m.first, i)) == Some(Marks(P, m, i))
    decreases m.length - i
  {
    hide Offset; hide JavaLength; hide Instruction; hide Stands; hide Supported; hide CaseCount; hide Length;
    hide OperandBytes; hide Assembled;
    if i == m.length {
      AssembledLength(code, P, m);
    } else {
      WalkMeetsMarks(code, P, m, i + 1);
      DeliveredOf(code, P, m);
      AssembledStands(code, P, m, i);
      if IsSwitch(P.codes[m.first + i]) {
        SwitchLengthRead(code, P, m, i);
        assert Marks(P, m, i) == [Offset(P, m.first, i)] + Marks(P, m, i + 1);
      } else {
        SimpleLengthRead(code, P, m, i);
        var at := Offset(P, m.first, i);
        if Combined(P.codes[m.first + i]) {
          assert Boundaries(code, at + 1) == Some([at + 1] + Marks(P, m, i + 1));
          assert [at] + ([at + 1] + Marks(P, m, i + 1)) == Marks(P, m, i);
        } else {
          assert Marks(P, m, i) == [at] + Marks(P, m, i + 1);
        }
      }
    }
  }

  lemma DeliveredOf(code: seq<byte>, P: Program, m: Method)
    requires Assembled(code, P, m)
    ensures Delivered(P) && MethodIn(P, m)
  {
    hide Delivered;
  }

  lemma AssembledLength(code: seq<byte>, P: Program, m: Method)
    requires Assembled(code, P, m)
    ensures |code| == Offset(P, m.first, m.length)
  {
    hide Cut; hide Need; hide CaseNeed; hide Offset; hide MethodCode;
    MethodLength(P, m, m.length);
  }

  /** Every jump and every switch leads exactly to the instructions its labels named. */
  lemma JumpsReachLabels(code: seq<byte>, P: Program, m: Method, i: nat)
    requires Assembled(code, P, m) && i < m.length
    ensures Offset(P, m.first, i) < |code|
    ensures Targets(code, Offset(P, m.first, i)) == Landings(P, m, i, Demand(P, m.first + i, Labels))
    ensures Combined(P.codes[m.first + i]) ==>
              Offset(P, m.first, i) + 1 < |code| && Targets(code, Offset(P, m.first, i) + 1) == []
  {
    hide Offset; hide Instruction; hide Stands; hide CaseCount; hide OperandBytes; hide Assembled; hide Targets;
    hide Landing; hide Length;
    hide Arg; hide Delivered; hide JavaLength;
    DeliveredOf(code, P, m);
    AssembledStands(code, P, m, i);
    var op := P.codes[m.first + i];
    if IsSwitch(op) {
      SwitchTargets(code, P, m, i);
    } else {
      NoCases(P, m.first + i);
      SimpleLengthRead(code, P, m, i);
      if IsLabel(op) { BranchTargets(code, P, m, i); }
    }
  }

  lemma NoCases(P: Program, g: nat)
    requires g < |P.codes| && !IsSwitch(P.codes[g])
    ensures CaseCount(P, g) == 0
  {
  }

  /** And each of those is the beginning of an instruction the walk meets. */
  lemma {:induction false} LandingsAreMarks(P: Program, m: Method, from: nat, t: nat)
    requires MethodIn(P, m) && from <= t < m.length
    ensures Offset(P, m.first, t) in Marks(P, m, from)
    decreases t - from
  {
    hide Offset;
    if from < t { LandingsAreMarks(P, m, from + 1, t); }
  }

  /** No label of an assembled method leaves the method. */
  lemma LabelsStayInside(code: seq<byte>, P: Program, m: Method, i: nat, j: nat)
    requires Assembled(code, P, m) && i < m.length && j < Demand(P, m.first + i, Labels)
    ensures 0 <= i + Arg(P, m.first + i, Labels, j) < m.length
  {
    hide Offset; hide Stands; hide CaseCount; hide Assembled; hide Arg; hide Delivered; hide Length; hide Cases;
    DeliveredOf(code, P, m);
    AssembledStands(code, P, m, i);
    var op := P.codes[m.first + i];
    if IsSwitch(op) {
      SwitchFields(P, m, i);
      if j > 0 { CaseStands(P, m, i, j - 1, CaseCount(P, m.first + i)); }
    } else {
      NoCases(P, m.first + i);
    }
  }
}
