// The layout parser on values: an explicit-stack parser that threads the element table while it reads the
// layout text. The tables, the frame stack and the position are one value that each turn replaces.
module LayoutParser {
  import opened Common
  import opened LayoutModel

  const MAX_LAYOUT_LENGTH: nat := 64 * 1024

  datatype FrameKind = SequenceFrame | UnionFrame

  datatype ParseFrame = ParseFrame(
    kind: FrameKind,
    parent: nat,
    lastChild: nat := NO_INDEX,
    callableIndex: nat := NO_INDEX,
    hasClosingBracket: bool := false,
    sawDefault: bool := false)

  /** The parser's tables, stack and position; `parent` and `owner` record the tree for the proofs. */
  datatype ParseState = ParseState(
    elements: seq<Element>,
    bands: seq<Band>,
    callables: seq<CallableEntry>,
    selectors: seq<SelectorRange>,
    frames: seq<ParseFrame>,
    position: nat,
    parent: seq<nat>,
    owner: seq<nat>)

  const START := ParseState(
    [Element(Sequence)], [], [], [], [ParseFrame(SequenceFrame, 0)], 0, [0], [])

  predicate IsWidth(c: char) {
    c == 'B' || c == 'H' || c == 'I' || c == 'V'
  }

  function WidthBytes(c: char): nat {
    match c
    case 'B' => 1
    case 'H' => 2
    case 'I' => 4
    case _ => 0
  }

  predicate IsDigit(c: char) {
    '0' <= c <= '9'
  }

  /** The character at p, or a character no layout uses when p is behind the end. */
  function At(text: string, p: nat): char {
    if p < |text| then text[p] else '\0'
  }

  /** Accumulate decimal digits from p on, refusing magnitudes beyond 2 to the 31. */
  function Digits(text: string, p: nat, magnitude: nat): (r: Option<(int, nat)>)
    ensures r.Some? ==> p <= r.value.1 && (p <= |text| ==> r.value.1 <= |text|)
    decreases |text| - p
  {
    if p < |text| && IsDigit(text[p]) then
      var digit := text[p] as int - '0' as int;
      if magnitude > (0x8000_0000 - digit) / 10 then None
      else Digits(text, p + 1, magnitude * 10 + digit)
    else Some((magnitude, p))
  }

  /** A signed 32-bit decimal number and the position behind it. */
  function Number(text: string, p: nat): (r: Option<(int, nat)>)
    ensures r.Some? ==> p < r.value.1 <= |text|
  {
    var negative := At(text, p) == '-';
    var first := if negative then p + 1 else p;
    if first >= |text| || !IsDigit(text[first]) then None
    else
      match Digits(text, first, 0)
      case None => None
      case Some(d) =>
        if negative then Some((-d.0, d.1))
        else if d.0 > 0x7fff_ffff then None
        else Some((d.0, d.1))
  }

  function ReferenceOf(prefix: char, kind: char): ReferenceKind {
    if prefix == 'K' then
      match kind
      case 'I' => IntegerRef
      case 'J' => LongRef
      case 'F' => FloatRef
      case 'D' => DoubleRef
      case 'S' => StringRef
      case 'Q' => FieldSpecificRef
      case 'L' => LoadableRef
      case 'M' => MethodHandleRef
      case 'T' => MethodTypeRef
      case _ => NoReference
    else
      match kind
      case 'C' => ClassRef
      case 'S' => SignatureRef
      case 'D' => DescriptorRef
      case 'F' => FieldRef
      case 'M' => MethodRef
      case 'I' => InterfaceMethodRef
      case 'U' => Utf8Ref
      case 'Q' => AnyRef
      case 'N' => AnyMemberRef
      case 'B' => BootstrapMethodRef
      case 'Y' => InvokeDynamicRef
      case _ => NoReference
  }

  //
  // Table updates
  //

  /** Point the parent, or the child linked last, at the row about to be appended. */
  function Link(elements: seq<Element>, parent: nat, lastChild: nat): (r: seq<Element>)
    ensures |r| == |elements|
  {
    if lastChild == NO_INDEX then
      if parent < |elements| then elements[parent := elements[parent].(firstChild := |elements|)] else elements
    else
      if lastChild < |elements| then elements[lastChild := elements[lastChild].(nextSibling := |elements|)] else elements
  }

  /** Append a row under the top frame's parent and link it in. */
  function AddElement(st: ParseState, e: Element): (r: ParseState)
    requires st.frames != []
    ensures |r.elements| == |st.elements| + 1
  {
    var top := Top(st);
    st.(elements := Link(st.elements, top.parent, top.lastChild) + [e],
        frames := st.frames[..|st.frames| - 1] + [top.(lastChild := |st.elements|)],
        parent := st.parent + [top.parent])
  }

  /** Append a row that reads a band of its own. */
  function AddBanded(st: ParseState, e: Element, coding: CodingKind): (r: ParseState)
    requires st.frames != []
    ensures |r.elements| == |st.elements| + 1 && |r.bands| == |st.bands| + 1
  {
    AddElement(st, e.(bandIndex := |st.bands|)).(
      bands := st.bands + [Band(coding, e.reference, e.outputSize, e.nullable)],
      owner := st.owner + [|st.elements|])
  }

  function PushFrame(st: ParseState, f: ParseFrame): ParseState {
    st.(frames := st.frames + [f])
  }

  function PopFrame(st: ParseState): ParseState
    requires st.frames != []
  {
    st.(frames := st.frames[..|st.frames| - 1])
  }

  function Top(st: ParseState): ParseFrame
    requires st.frames != []
  {
    st.frames[|st.frames| - 1]
  }

  /** Everything still fits the tables allocated for a text of this length. */
  predicate HasRoom(text: string, st: ParseState) {
    |st.elements| <= |text| && |st.bands| <= |text| && |st.callables| <= |text| && |st.frames| <= |text|
  }

  predicate Overlap(a: SelectorRange, b: SelectorRange) {
    a.first <= b.last && b.first <= a.last
  }

  /** Case row c or one of its later siblings has a selector range that overlaps the given one. */
  function AnyOverlap(elements: seq<Element>, selectors: seq<SelectorRange>, c: nat, range: SelectorRange): bool
    decreases |elements| - c
  {
    if c >= |elements| then false
    else
      || (exists k | elements[c].selectorOffset <= k < elements[c].selectorOffset + elements[c].selectorCount
            && k < |selectors| :: Overlap(selectors[k], range))
      || (c < elements[c].nextSibling && AnyOverlap(elements, selectors, elements[c].nextSibling, range))
  }

  /** One selector, a number or a range of two, and the position behind it. */
  function Selector(text: string, p: nat): (r: Option<(SelectorRange, nat)>)
    ensures r.Some? ==> p < r.value.1 <= |text| && r.value.0.first <= r.value.0.last
  {
    match Number(text, p)
    case None => None
    case Some(first) =>
      if At(text, first.1) == '-' then
        match Number(text, first.1 + 1)
        case None => None
        case Some(last) =>
          if last.0 < first.0 then None else Some((SelectorRange(first.0, last.0), last.1))
      else Some((SelectorRange(first.0, first.0), first.1))
  }

  /** The comma-separated selectors of one case up to its closing parenthesis; earlier cases start at row `prior`. */
  function Selectors(text: string, p: nat, elements: seq<Element>, selectors: seq<SelectorRange>, prior: nat)
    : (r: Option<(seq<SelectorRange>, nat)>)
    ensures r.Some? ==> p < r.value.1 <= |text| && selectors <= r.value.0 && |selectors| < |r.value.0|
    decreases |text| - p
  {
    match Selector(text, p)
    case None => None
    case Some(sel) =>
      if |selectors| > |text| || AnyOverlap(elements, selectors, prior, sel.0) then None
      else
        var more := selectors + [sel.0];
        if At(text, sel.1) == ')' then Some((more, sel.1 + 1))
        else if At(text, sel.1) == ',' then Selectors(text, sel.1 + 1, elements, more, prior)
        else None
  }

  /** Open the next case of the union the top frame stands for. */
  function ParseCase(text: string, st: ParseState): (r: Option<ParseState>)
    requires st.frames != [] && st.position <= |text|
    ensures r.Some? ==> st.position < r.value.position <= |text|
  {
    var p := st.position;
    if At(text, p) != '(' then None
    else
      var top := Top(st);
      var prior := if top.parent < |st.elements| then st.elements[top.parent].firstChild else NO_INDEX;
      var parsed :=
        if At(text, p + 1) == ')' then Some((st.selectors, p + 2))
        else Selectors(text, p + 1, st.elements, st.selectors, prior);
      match parsed
      case None => None
      case Some(sel) =>
        if At(text, sel.1) != '[' || !HasRoom(text, st) then None
        else
          var row := Element(UnionCase, selectorOffset := |st.selectors|, selectorCount := |sel.0| - |st.selectors|);
          var index := |st.elements|;
          var st1 := AddElement(st.(selectors := sel.0, position := sel.1 + 1), row);
          var marked := st1.(frames := st1.frames[..|st1.frames| - 1]
                                       + [Top(st1).(sawDefault := At(text, p + 1) == ')')]);
          Some(PushFrame(marked, ParseFrame(SequenceFrame, index, callableIndex := top.callableIndex,
                                            hasClosingBracket := true)))
  }

  /** A callable: allowed only at the top level. */
  function ParseCallable(text: string, st: ParseState): (r: Option<ParseState>)
    requires st.frames != [] && st.position < |text|
    ensures r.Some? ==> r.value.position == st.position + 1
  {
    if |st.frames| != 1 || Top(st).parent != 0 || !HasRoom(text, st) then None
    else
      var index := |st.elements|;
      var c := |st.callables|;
      var st1 := AddElement(st.(position := st.position + 1), Element(Callable, callableIndex := c));
      Some(PushFrame(st1.(callables := st1.callables + [CallableEntry(index, false)]),
                     ParseFrame(SequenceFrame, index, callableIndex := c, hasClosingBracket := true)))
  }

  function ParseReplication(text: string, st: ParseState): (r: Option<ParseState>)
    requires st.frames != [] && st.position < |text|
    ensures r.Some? ==> st.position < r.value.position <= |text|
  {
    var p := st.position;
    if p + 2 >= |text| || !IsWidth(text[p + 1]) || text[p + 2] != '[' || !HasRoom(text, st) then None
    else
      var index := |st.elements|;
      var st1 := AddBanded(st.(position := p + 3), Element(Replication, outputSize := WidthBytes(text[p + 1])),
                           if text[p + 1] == 'B' then Byte1 else Unsigned5);
      Some(PushFrame(st1, ParseFrame(SequenceFrame, index, callableIndex := Top(st).callableIndex,
                                     hasClosingBracket := true)))
  }

  function ParseUnion(text: string, st: ParseState): (r: Option<ParseState>)
    requires st.frames != [] && st.position < |text|
    ensures r.Some? ==> st.position < r.value.position <= |text|
  {
    var signed := At(text, st.position + 1) == 'S';
    var p := st.position + if signed then 2 else 1;
    if !IsWidth(At(text, p)) || !HasRoom(text, st) then None
    else
      var width := At(text, p);
      var index := |st.elements|;
      var st1 := AddBanded(st.(position := p + 1), Element(Union, outputSize := WidthBytes(width), signed := signed),
                           if signed then Signed5 else if width == 'B' then Byte1 else Unsigned5);
      Some(PushFrame(st1, ParseFrame(UnionFrame, index, callableIndex := Top(st).callableIndex)))
  }

  function ParseCall(text: string, st: ParseState): (r: Option<ParseState>)
    requires st.frames != [] && st.position < |text|
    ensures r.Some? ==> st.position < r.value.position <= |text|
  {
    if Top(st).callableIndex == NO_INDEX then None
    else
      match Number(text, st.position + 1)
      case None => None
      case Some(n) =>
        if At(text, n.1) != ')' || !HasRoom(text, st) then None
        else Some(AddElement(st.(position := n.1 + 1),
                             Element(Call, callOffset := n.0, callableIndex := Top(st).callableIndex)))
  }

  function ParseReference(text: string, st: ParseState): (r: Option<ParseState>)
    requires st.frames != [] && st.position < |text|
    ensures r.Some? ==> st.position < r.value.position <= |text|
  {
    var p := st.position;
    if p + 2 >= |text| || ReferenceOf(text[p], text[p + 1]) == NoReference then None
    else
      var nullable := At(text, p + 2) == 'N';
      var q := p + if nullable then 3 else 2;
      if !IsWidth(At(text, q)) || !HasRoom(text, st) then None
      else Some(AddBanded(st.(position := q + 1),
                          Element(Reference, reference := ReferenceOf(text[p], text[p + 1]), nullable := nullable,
                                  outputSize := WidthBytes(At(text, q))),
                          Unsigned5))
  }

  /** An integral: [S|F]width, P[O]width or O[S]width. The F mark is read and dropped. */
  function ParseIntegral(text: string, st: ParseState): (r: Option<ParseState>)
    requires st.frames != [] && st.position < |text|
    ensures r.Some? ==> st.position < r.value.position <= |text|
  {
    var p := st.position;
    var token := text[p];
    var next := At(text, p + 1);
    var shape :=  // the offset of the width, the bytecode-index kind, and the sign
      if IsWidth(token) then Some((0, NoBci, false))
      else if token == 'S' || token == 'F' then Some((1, NoBci, token == 'S'))
      else if token == 'P' then if next == 'O' then Some((2, BciPreviousOffset, false)) else Some((1, BciIndex, false))
      else if token == 'O' then if next == 'S' then Some((2, BciOffset, true)) else Some((1, BciOffset, false))
      else None;
    match shape
    case None => None
    case Some(form) =>
      var width := At(text, p + form.0);
      if !IsWidth(width) || !HasRoom(text, st) then None
      else
        var coding :=
          match form.1
          case NoBci => if form.2 then Signed5 else if width == 'B' then Byte1 else Unsigned5
          case BciIndex => Bci5
          case _ => Branch5;
        Some(AddBanded(st.(position := p + form.0 + 1),
                       Element(Integral, bciKind := form.1, outputSize := WidthBytes(width), signed := form.2),
                       coding))
  }

  /** One turn of the parser: None when the text is malformed. */
  function ParseStep(text: string, st: ParseState): (r: Option<ParseState>)
    requires st.frames != [] && st.position <= |text|
    ensures r.Some? ==>
              && st.position <= r.value.position <= |text|
              && (st.position < r.value.position || |r.value.frames| < |st.frames|)
  {
    var top := Top(st);
    if top.kind == UnionFrame then
      if top.sawDefault then Some(PopFrame(st)) else ParseCase(text, st)
    else if st.position >= |text| then
      if top.hasClosingBracket || |st.frames| != 1 then None else Some(PopFrame(st))
    else
      match text[st.position]
      case ']' => if top.hasClosingBracket then Some(PopFrame(st).(position := st.position + 1)) else None
      case '[' => ParseCallable(text, st)
      case 'N' => ParseReplication(text, st)
      case 'T' => ParseUnion(text, st)
      case '(' => ParseCall(text, st)
      case 'K' => ParseReference(text, st)
      case 'R' => ParseReference(text, st)
      case _ => ParseIntegral(text, st)
  }

  /** Turn until the stack is empty. */
  function ParseAll(text: string, st: ParseState): (r: Option<ParseState>)
    requires st.position <= |text|
    ensures r.Some? ==> r.value.frames == [] && r.value.position <= |text|
    decreases |text| - st.position, |st.frames|
  {
    if st.frames == [] then Some(st)
    else
      match ParseStep(text, st)
      case None => None
      case Some(next) => ParseAll(text, next)
  }
}
