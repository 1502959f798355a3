// The layout compiler in place: the tables of the object grow while a position runs over the text and a
// stack of frames is pushed and popped. Each turn is the turn of the parser on values.
module LayoutCompiler {
  import opened Common
  import opened LayoutModel
  import opened LayoutParser
  import opened LayoutParserSound
  import opened LayoutCompile
  import opened LayoutNumbers

  /** Digits are accumulated one by one, refusing magnitudes that do not fit. */
  method ParseSignedNumber(text: string, position: nat) returns (ok: bool, value: int, position': nat)
    ensures ok <==> Number(text, position).Some?
    ensures ok ==> Number(text, position) == Some((value, position'))
    // that is, exactly the decimal numbers of 32 bits
    ensures ok ==> Numeral(text, position, position', value)
    ensures !ok ==> forall v: int, q: nat :: !Numeral(text, position, q, v)
  {
    forall v: int, q: nat
      ensures Numeral(text, position, q, v) <==> Number(text, position) == Some((v, q))
    {
      NumberExactly(text, position, v, q);
    }
    hide Numeral;
    value, position' := 0, position;
    if position' >= |text| {
      return false, value, position';
    }
    var negative := false;
    if text[position'] == '-' {
      negative := true;
      position' := position' + 1;
    }
    if position' >= |text| || !IsDigit(text[position']) {
      return false, value, position';
    }
    var magnitude := 0;
    ghost var first := position';
    while position' < |text| && IsDigit(text[position'])
      invariant first <= position' <= |text| && 0 <= magnitude
      invariant Digits(text, position', magnitude) == Digits(text, first, 0)
    {
      var digit := text[position'] as int - '0' as int;
      if magnitude > (0x8000_0000 - digit) / 10 {
        return false, value, position';
      }
      magnitude := magnitude * 10 + digit;
      position' := position' + 1;
    }
    if negative {
      value := -magnitude;
    } else {
      if magnitude > 0x7fff_ffff {
        return false, value, position';
      }
      value := magnitude;
    }
    ok := true;
  }

  //
  // Room and links while parsing
  //

  /** While there is text left no table is full: every capacity check succeeds. */
  lemma RoomLeft(text: string, st: ParseState)
    requires Bounded(st) && st.position < |text|
    ensures HasRoom(text, st)
  {
  }

  /** The sibling links run forward inside the table and selector runs lie inside theirs. */
  ghost predicate Threaded(elements: seq<Element>, selectors: seq<SelectorRange>) {
    forall i: nat :: i < |elements| ==> ThreadedAt(elements, selectors, i)
  }

  predicate ThreadedAt(elements: seq<Element>, selectors: seq<SelectorRange>, i: nat)
    requires i < |elements|
  {
    var e := elements[i];
    && (e.nextSibling == NO_INDEX || i < e.nextSibling < |elements|) && e.selectorOffset + e.selectorCount <= |selectors|
  }

  lemma InvThreaded(st: ParseState)
    requires Inv(st)
    ensures Threaded(st.elements, st.selectors) && |st.elements| < NO_INDEX
    ensures forall i: nat :: i < |st.elements| ==> Within(st.elements[i].firstChild, |st.elements|)
  {
    hide FrameIn; hide FrameRowIn; hide PairOk; hide BandOk; hide CallableOk;
    forall i: nat | i < |st.elements|
      ensures ThreadedAt(st.elements, st.selectors, i) && Within(st.elements[i].firstChild, |st.elements|)
    {
      assert RowIn(st, i);
    }
  }

  lemma SelectorsTurn(text: string, p: nat, elements: seq<Element>, selectors: seq<SelectorRange>, prior: nat)
    requires p <= |text|
    ensures Selector(text, p).None? ==> Selectors(text, p, elements, selectors, prior) == None
    ensures Selector(text, p).Some? ==>
              var sel := Selector(text, p).value;
              Selectors(text, p, elements, selectors, prior) ==
                if |selectors| > |text| || AnyOverlap(elements, selectors, prior, sel.0) then None
                else if At(text, sel.1) == ')' then Some((selectors + [sel.0], sel.1 + 1))
                else if At(text, sel.1) == ',' then Selectors(text, sel.1 + 1, elements, selectors + [sel.0], prior)
                else None
  {
    hide Selector; hide AnyOverlap;
  }

  lemma OverlapTurn(elements: seq<Element>, selectors: seq<SelectorRange>, c: nat, range: SelectorRange)
    requires c < |elements|
    ensures AnyOverlap(elements, selectors, c, range) <==>
              || (exists k | elements[c].selectorOffset <= k < elements[c].selectorOffset + elements[c].selectorCount
                    && k < |selectors| :: Overlap(selectors[k], range))
              || (c < elements[c].nextSibling && AnyOverlap(elements, selectors, elements[c].nextSibling, range))
  {
    hide Overlap;
  }

  class AttributeLayout {
    var elements: seq<Element>
    var bands: seq<Band>
    var callables: seq<CallableEntry>
    var selectors: seq<SelectorRange>
    var backwardCallables: nat
    /** The tree the links thread. */
    ghost var shape: Shape

    constructor ()
      ensures View() == Layout([], [], [], [], 0)
    {
      elements, bands, callables, selectors, backwardCallables := [], [], [], [], 0;
      shape := Shape([], []);
    }

    function View(): Layout
      reads this
    {
      Layout(elements, bands, callables, selectors, backwardCallables)
    }

    method Reset()
      modifies this
      ensures View() == Layout([], [], [], [], 0)
    {
      elements, bands, callables, selectors, backwardCallables := [], [], [], [], 0;
    }

    /** The object, the position and the frames stand where the parser on values stands. */
    ghost predicate Shows(st: ParseState, position: nat, frames: seq<ParseFrame>)
      reads this
    {
      && position == st.position && frames == st.frames
      && elements == st.elements && bands == st.bands && callables == st.callables && selectors == st.selectors
    }

    //
    // Table updates
    //

    /** Append a row under the top frame's parent and link it in. */
    method AddRow(frames: seq<ParseFrame>, e: Element, ghost st: ParseState, ghost position: nat)
      returns (frames': seq<ParseFrame>, index: nat, ghost st': ParseState)
      requires frames != [] && Shows(st, position, frames)
      modifies this`elements
      ensures st' == AddElement(st, e) && Shows(st', position, frames') && index == |st.elements|
    {
      var top := frames[|frames| - 1];
      index := |elements|;
      if top.lastChild == NO_INDEX {
        if top.parent < |elements| {
          elements := elements[top.parent := elements[top.parent].(firstChild := index)];
        }
      } else if top.lastChild < |elements| {
        elements := elements[top.lastChild := elements[top.lastChild].(nextSibling := index)];
      }
      elements := elements + [e];
      frames' := frames[..|frames| - 1] + [top.(lastChild := index)];
      st' := AddElement(st, e);
    }

    /** Append a row that reads a band of its own. */
    method AddBandRow(frames: seq<ParseFrame>, e: Element, coding: CodingKind, ghost st: ParseState, ghost position: nat)
      returns (frames': seq<ParseFrame>, index: nat, ghost st': ParseState)
      requires frames != [] && Shows(st, position, frames)
      modifies this`elements, this`bands
      ensures st' == AddBanded(st, e, coding) && Shows(st', position, frames') && index == |st.elements|
    {
      hide AddElement;
      frames', index, st' := AddRow(frames, e.(bandIndex := |bands|), st, position);
      bands := bands + [Band(coding, e.reference, e.outputSize, e.nullable)];
      AddElementTables(st, e.(bandIndex := |st.bands|));
      st' := AddBanded(st, e, coding);
    }

    lemma AddElementTables(st: ParseState, e: Element)
      requires st.frames != []
      ensures var r := AddElement(st, e);
        && r.bands == st.bands && r.owner == st.owner && r.callables == st.callables && r.selectors == st.selectors
        && r.position == st.position
    {
    }

    //
    // Selectors
    //

    /** Has an earlier case of the union a selector that overlaps the range? */
    method Overlaps(prior: nat, range: SelectorRange) returns (found: bool)
      requires Threaded(elements, selectors) && Within(prior, |elements|) && |elements| < NO_INDEX
      ensures found <==> AnyOverlap(elements, selectors, prior, range)
    {
      hide AnyOverlap; hide Overlap;
      var caseIndex := prior;
      while caseIndex != NO_INDEX
        invariant Within(caseIndex, |elements|)
        invariant AnyOverlap(elements, selectors, prior, range) == AnyOverlap(elements, selectors, caseIndex, range)
        decreases if caseIndex == NO_INDEX then 0 else |elements| - caseIndex
      {
        OverlapTurn(elements, selectors, caseIndex, range);
        assert ThreadedAt(elements, selectors, caseIndex);
        var row := elements[caseIndex];
        for selectorIndex := 0 to row.selectorCount
          invariant forall k :: row.selectorOffset <= k < row.selectorOffset + selectorIndex ==> !Overlap(selectors[k], range)
        {
          if Overlap(selectors[row.selectorOffset + selectorIndex], range) {
            return true;
          }
        }
        if row.nextSibling == NO_INDEX { NoOverlapBehind(elements, selectors, row.nextSibling, range); }
        caseIndex := row.nextSibling;
      }
      NoOverlapBehind(elements, selectors, NO_INDEX, range);
      found := false;
    }

    /** One selector: a number or a range of two. */
    method ParseSelector(text: string, position: nat) returns (ok: bool, range: SelectorRange, position': nat)
      ensures ok <==> Selector(text, position).Some?
      ensures ok ==> Selector(text, position) == Some((range, position'))
    {
      hide Number;
      range := SelectorRange(0, 0);
      var first;
      ok, first, position' := ParseSignedNumber(text, position);
      if !ok {
        return;
      }
      range := SelectorRange(first, first);
      if position' < |text| && text[position'] == '-' {
        var last;
        ok, last, position' := ParseSignedNumber(text, position' + 1);
        range := SelectorRange(first, last);
        ok := ok && last >= first;
      }
    }

    /** The selectors of one case up to its closing parenthesis. */
    method ParseSelectors(text: string, position: nat, prior: nat) returns (ok: bool, position': nat)
      requires position <= |text| && Threaded(elements, selectors) && Within(prior, |elements|) && |elements| < NO_INDEX
      modifies this`selectors
      ensures ok <==> Selectors(text, position, elements, old(selectors), prior).Some?
      ensures ok ==> Selectors(text, position, elements, old(selectors), prior) == Some((selectors, position'))
    {
      hide Selector; hide AnyOverlap; hide Selectors;
      position' := position;
      while true
        invariant position' <= |text| && old(selectors) <= selectors && Threaded(elements, selectors)
        invariant Selectors(text, position', elements, selectors, prior) == Selectors(text, position, elements, old(selectors), prior)
        decreases |text| - position'
      {
        SelectorsTurn(text, position', elements, selectors, prior);
        ghost var before := selectors;
        var range, next;
        ok, range, next := ParseSelector(text, position');
        if !ok || |selectors| >= |text| + 1 {
          return false, position';
        }
        var overlaps := Overlaps(prior, range);
        if overlaps {
          return false, position';
        }
        selectors := selectors + [range];
        ThreadedMore(elements, before, range);
        SelectorInside(text, position');
        if next >= |text| {
          return false, position';
        }
        if text[next] == ')' {
          return true, next + 1;
        }
        if text[next] != ',' {
          return false, position';
        }
        position' := next + 1;
      }
    }

    //
    // One method for each kind of turn
    //

    /** The next case of the union the top frame stands for. */
    method OpenCase(text: string, position: nat, frames: seq<ParseFrame>, ghost st: ParseState)
      returns (ok: bool, position': nat, frames': seq<ParseFrame>, ghost st': ParseState)
      requires frames != [] && Shows(st, position, frames) && Inv(st) && Bounded(st) && position <= |text|
      modifies this`elements, this`selectors
      ensures ok <==> ParseCase(text, st).Some?
      ensures ok ==> ParseCase(text, st) == Some(st') && Shows(st', position', frames')
    {
      hide Inv; hide Selectors; hide AddElement; hide Bounded;
      position', frames', st' := position, frames, st;
      if position >= |text| || text[position] != '(' {
        return false, position', frames', st';
      }
      TopFacts(st);
      InvThreaded(st);
      RoomLeft(text, st);
      position' := position + 1;
      var selectorStart := |selectors|;
      var defaultCase := false;
      if position' < |text| && text[position'] == ')' {
        defaultCase := true;
        position' := position' + 1;
      } else {
        ok, position' := ParseSelectors(text, position', elements[frames[|frames| - 1].parent].firstChild);
        if !ok {
          return;
        }
      }
      if position' >= |text| || text[position'] != '[' {
        return false, position', frames', st';
      }
      position' := position' + 1;
      var callableIndex := frames[|frames| - 1].callableIndex;
      st' := st.(selectors := selectors, position := position');
      var row := Element(UnionCase, selectorOffset := selectorStart, selectorCount := |selectors| - selectorStart);
      var caseIndex;
      frames', caseIndex, st' := AddRow(frames, row, st', position');
      AddElementFrames(st.(selectors := selectors, position := position'), row);
      frames' := frames'[..|frames'| - 1] + [frames'[|frames'| - 1].(sawDefault := defaultCase)];
      frames' := frames' + [ParseFrame(SequenceFrame, caseIndex, callableIndex := callableIndex, hasClosingBracket := true)];
      st' := ParseCase(text, st).value;
      ok := true;
    }

    lemma AddElementFrames(st: ParseState, e: Element)
      requires st.frames != []
      ensures AddElement(st, e).frames != []
    {
    }

    /** A callable: allowed only at the top level. */
    method OpenCallable(text: string, position: nat, frames: seq<ParseFrame>, ghost st: ParseState)
      returns (ok: bool, position': nat, frames': seq<ParseFrame>, ghost st': ParseState)
      requires frames != [] && Shows(st, position, frames) && Bounded(st) && position < |text|
      modifies this`elements, this`callables
      ensures ok <==> ParseCallable(text, st).Some?
      ensures ok ==> ParseCallable(text, st) == Some(st') && Shows(st', position', frames')
    {
      hide AddElement; hide Bounded;
      position', frames', st' := position, frames, st;
      RoomLeft(text, st);
      if |frames| != 1 || frames[0].parent != 0 {
        return false, position', frames', st';
      }
      position' := position + 1;
      st' := st.(position := position');
      var callableIndex := |callables|;
      var element;
      frames', element, st' := AddRow(frames, Element(Callable, callableIndex := callableIndex), st', position');
      callables := callables + [CallableEntry(element, false)];
      frames' := frames' + [ParseFrame(SequenceFrame, element, callableIndex := callableIndex, hasClosingBracket := true)];
      AddElementTables(st.(position := position'), Element(Callable, callableIndex := callableIndex));
      st' := ParseCallable(text, st).value;
      ok := true;
    }

    method OpenReplication(text: string, position: nat, frames: seq<ParseFrame>, ghost st: ParseState)
      returns (ok: bool, position': nat, frames': seq<ParseFrame>, ghost st': ParseState)
      requires frames != [] && Shows(st, position, frames) && Bounded(st) && position < |text|
      modifies this`elements, this`bands
      ensures ok <==> ParseReplication(text, st).Some?
      ensures ok ==> ParseReplication(text, st) == Some(st') && Shows(st', position', frames')
    {
      hide AddBanded; hide Bounded;
      position', frames', st' := position, frames, st;
      RoomLeft(text, st);
      if position + 2 >= |text| || !IsWidth(text[position + 1]) || text[position + 2] != '[' {
        return false, position', frames', st';
      }
      var width := text[position + 1];
      position' := position + 3;
      ghost var start := st.(position := position');
      var row := Element(Replication, outputSize := WidthBytes(width));
      var index;
      frames', index, st' := AddBandRow(frames, row, if width == 'B' then Byte1 else Unsigned5, start, position');
      AddBandedTop(start, row, if width == 'B' then Byte1 else Unsigned5);
      frames' := frames' + [ParseFrame(SequenceFrame, index, callableIndex := frames[|frames| - 1].callableIndex,
        hasClosingBracket := true)];
      st' := ParseReplication(text, st).value;
      ok := true;
    }

    lemma AddBandedTop(st: ParseState, e: Element, coding: CodingKind)
      requires st.frames != []
      ensures var r := AddBanded(st, e, coding);
        r.frames != [] && Top(r).callableIndex == Top(st).callableIndex
    {
    }

    method OpenUnion(text: string, position: nat, frames: seq<ParseFrame>, ghost st: ParseState)
      returns (ok: bool, position': nat, frames': seq<ParseFrame>, ghost st': ParseState)
      requires frames != [] && Shows(st, position, frames) && Bounded(st) && position < |text|
      modifies this`elements, this`bands
      ensures ok <==> ParseUnion(text, st).Some?
      ensures ok ==> ParseUnion(text, st) == Some(st') && Shows(st', position', frames')
    {
      hide AddBanded; hide Bounded;
      position', frames', st' := position + 1, frames, st;
      RoomLeft(text, st);
      var signed := false;
      if position' < |text| && text[position'] == 'S' {
        signed := true;
        position' := position' + 1;
      }
      if position' >= |text| || !IsWidth(text[position']) {
        return false, position', frames', st';
      }
      var width := text[position'];
      position' := position' + 1;
      ghost var start := st.(position := position');
      var row := Element(Union, outputSize := WidthBytes(width), signed := signed);
      var coding := if signed then Signed5 else if width == 'B' then Byte1 else Unsigned5;
      var index;
      frames', index, st' := AddBandRow(frames, row, coding, start, position');
      AddBandedTop(start, row, coding);
      frames' := frames' + [ParseFrame(UnionFrame, index, callableIndex := frames[|frames| - 1].callableIndex)];
      st' := ParseUnion(text, st).value;
      ok := true;
    }

    method AddCall(text: string, position: nat, frames: seq<ParseFrame>, ghost st: ParseState)
      returns (ok: bool, position': nat, frames': seq<ParseFrame>, ghost st': ParseState)
      requires frames != [] && Shows(st, position, frames) && Bounded(st) && position < |text|
      modifies this`elements
      ensures ok <==> ParseCall(text, st).Some?
      ensures ok ==> ParseCall(text, st) == Some(st') && Shows(st', position', frames')
    {
      hide AddElement; hide Bounded; hide Number;
      position', frames', st' := position, frames, st;
      RoomLeft(text, st);
      var callableIndex := frames[|frames| - 1].callableIndex;
      if callableIndex == NO_INDEX {
        return false, position', frames', st';
      }
      var callOffset;
      ok, callOffset, position' := ParseSignedNumber(text, position + 1);
      if !ok || position' >= |text| || text[position'] != ')' {
        return false, position', frames', st';
      }
      position' := position' + 1;
      var index;
      frames', index, st' :=
        AddRow(frames, Element(Call, callOffset := callOffset, callableIndex := callableIndex), st.(position := position'), position');
      ok := true;
    }

    method AddReference(text: string, position: nat, frames: seq<ParseFrame>, ghost st: ParseState)
      returns (ok: bool, position': nat, frames': seq<ParseFrame>, ghost st': ParseState)
      requires frames != [] && Shows(st, position, frames) && Bounded(st) && position < |text|
      modifies this`elements, this`bands
      ensures ok <==> ParseReference(text, st).Some?
      ensures ok ==> ParseReference(text, st) == Some(st') && Shows(st', position', frames')
    {
      hide AddBanded; hide Bounded; hide ReferenceOf;
      position', frames', st' := position, frames, st;
      RoomLeft(text, st);
      if position + 2 >= |text| {
        return false, position', frames', st';
      }
      var reference := ReferenceOf(text[position], text[position + 1]);
      if reference == NoReference {
        return false, position', frames', st';
      }
      position' := position + 2;
      var nullable := false;
      if position' < |text| && text[position'] == 'N' {
        nullable := true;
        position' := position' + 1;
      }
      if position' >= |text| || !IsWidth(text[position']) {
        return false, position', frames', st';
      }
      var width := text[position'];
      position' := position' + 1;
      var row := Element(Reference, reference := reference, nullable := nullable, outputSize := WidthBytes(width));
      var index;
      frames', index, st' := AddBandRow(frames, row, Unsigned5, st.(position := position'), position');
      ok := true;
    }

    /** An integral, with its sign, its flag mark or its kind of bytecode index. */
    method AddIntegral(text: string, position: nat, frames: seq<ParseFrame>, ghost st: ParseState)
      returns (ok: bool, position': nat, frames': seq<ParseFrame>, ghost st': ParseState)
      requires frames != [] && Shows(st, position, frames) && Bounded(st) && position < |text|
      modifies this`elements, this`bands
      ensures ok <==> ParseIntegral(text, st).Some?
      ensures ok ==> ParseIntegral(text, st) == Some(st') && Shows(st', position', frames')
    {
      hide AddBanded; hide Bounded;
      position', frames', st' := position, frames, st;
      RoomLeft(text, st);
      var token := text[position];
      var signed := false;
      var bciKind := NoBci;
      if token == 'S' || token == 'F' {
        signed := token == 'S';
        position' := position' + 1;
      } else if token == 'P' {
        position' := position' + 1;
        bciKind := BciIndex;
        if position' < |text| && text[position'] == 'O' {
          bciKind := BciPreviousOffset;
          position' := position' + 1;
        }
      } else if token == 'O' {
        position' := position' + 1;
        bciKind := BciOffset;
        if position' < |text| && text[position'] == 'S' {
          signed := true;
          position' := position' + 1;
        }
      } else if !IsWidth(token) {
        return false, position', frames', st';
      }
      if position' >= |text| || !IsWidth(text[position']) {
        return false, position', frames', st';
      }
      var width := text[position'];
      position' := position' + 1;
      var coding := if bciKind == BciIndex then Bci5 else Branch5;
      if bciKind == NoBci {
        coding := if signed then Signed5 else if width == 'B' then Byte1 else Unsigned5;
      }
      var row := Element(Integral, bciKind := bciKind, outputSize := WidthBytes(width), signed := signed);
      var index;
      frames', index, st' := AddBandRow(frames, row, coding, st.(position := position'), position');
      ok := true;
    }

    /** One turn of the loop: look at the top frame, then at the next character. */
    method Turn(text: string, position: nat, frames: seq<ParseFrame>, ghost st: ParseState)
      returns (ok: bool, position': nat, frames': seq<ParseFrame>, ghost st': ParseState)
      requires frames != [] && Shows(st, position, frames) && Inv(st) && Bounded(st) && position <= |text|
      modifies this`elements, this`bands, this`callables, this`selectors
      ensures ok <==> ParseStep(text, st).Some?
      ensures ok ==> ParseStep(text, st) == Some(st') && Shows(st', position', frames')
    {
      hide Inv; hide Bounded; hide ParseCase; hide ParseCallable; hide ParseReplication; hide ParseUnion; hide ParseCall;
      hide ParseReference; hide ParseIntegral;
      position', frames', st' := position, frames, st;
      var top := frames[|frames| - 1];
      if top.kind == UnionFrame {
        if top.sawDefault {
          frames', st' := frames[..|frames| - 1], PopFrame(st);
          return true, position', frames', st';
        }
        ok, position', frames', st' := OpenCase(text, position, frames, st);
        return;
      }
      if position >= |text| {
        if top.hasClosingBracket || |frames| != 1 {
          return false, position', frames', st';
        }
        frames', st' := frames[..|frames| - 1], PopFrame(st);
        return true, position', frames', st';
      }
      var token := text[position];
      if token == ']' {
        if !top.hasClosingBracket {
          return false, position', frames', st';
        }
        position', frames', st' := position + 1, frames[..|frames| - 1], PopFrame(st).(position := position + 1);
        ok := true;
      } else if token == '[' {
        ok, position', frames', st' := OpenCallable(text, position, frames, st);
      } else if token == 'N' {
        ok, position', frames', st' := OpenReplication(text, position, frames, st);
      } else if token == 'T' {
        ok, position', frames', st' := OpenUnion(text, position, frames, st);
      } else if token == '(' {
        ok, position', frames', st' := AddCall(text, position, frames, st);
      } else if token == 'K' || token == 'R' {
        ok, position', frames', st' := AddReference(text, position, frames, st);
      } else {
        ok, position', frames', st' := AddIntegral(text, position, frames, st);
      }
    }

    /** Give every call its target and mark the callables that are called backward. */
    method Resolve() returns (ok: bool)
      requires backwardCallables == 0
      modifies this`elements, this`callables, this`backwardCallables
      ensures ok <==> ResolveCalls(old(View()), |old(elements)|).Some?
      ensures ok ==> ResolveCalls(old(View()), |old(elements)|) == Some(View())
    {
      hide ResolveRow;
      ResolveNone(View());
      for index := 0 to |elements|
        invariant |elements| == |old(elements)| && bands == old(bands) && selectors == old(selectors)
        invariant ResolveCalls(old(View()), index) == Some(View())
      {
        ghost var before := View();
        ResolveRowIs(before, index);
        var element := elements[index];
        if element.kind == Call {
          var target := element.callableIndex + element.callOffset;
          if target < 0 || target >= |callables| {
            ResolveFails(old(View()), index + 1, |old(elements)|);
            return false;
          }
          var backward := element.callOffset <= 0;
          elements := elements[index := element.(targetCallable := target, backwardCall := backward)];
          if backward && !callables[target].hasBackwardCall {
            callables := callables[target := callables[target].(hasBackwardCall := true)];
            backwardCallables := backwardCallables + 1;
          }
        }
      }
      ok := true;
    }

    method Compile(text: string) returns (status: Status)
      modifies this
      ensures status == InvalidParameter <==> |text| > MAX_LAYOUT_LENGTH
      ensures status == Success <==> CompileText(text).Some?
      ensures status == Success ==> View() == CompileText(text).value && WellFormed(View(), shape)
      ensures status != Success ==> View() == Layout([], [], [], [], 0)
    {
      hide Inv; hide Bounded; hide ParseStep; hide WellFormed; hide Resolved; hide ResolveCalls;
      Reset();
      if |text| > MAX_LAYOUT_LENGTH {
        return InvalidParameter;
      }
      StartInv();
      ghost var st := START;
      elements := [Element(Sequence)];
      var frames := [ParseFrame(SequenceFrame, 0)];
      var position := 0;
      while |frames| != 0
        invariant Shows(st, position, frames) && Inv(st) && Bounded(st) && position <= |text| && backwardCallables == 0
        invariant ParseAll(text, st) == ParseAll(text, START)
        decreases |text| - position, |frames|
      {
        ghost var before := st;
        var ok;
        ok, position, frames, st := Turn(text, position, frames, before);
        if !ok {
          Reset();
          return InvalidNetworkResponse;
        }
        StepKeeps(text, before);
      }
      if position != |text| {
        Reset();
        return InvalidNetworkResponse;
      }
      assert View() == TablesOf(st);
      var resolved := Resolve();
      if !resolved || (|callables| != 0 && (|elements| == 0 || elements[0].firstChild != callables[0].elementIndex)) {
        Reset();
        return InvalidNetworkResponse;
      }
      ResolveKeeps(st, |st.elements|);
      ResolvedWellFormed(st, View());
      shape := ShapeOf(st);
      status := Success;
    }
  }

  lemma NoOverlapBehind(elements: seq<Element>, selectors: seq<SelectorRange>, c: nat, range: SelectorRange)
    requires c >= |elements|
    ensures !AnyOverlap(elements, selectors, c, range)
  {
  }

  lemma ThreadedMore(elements: seq<Element>, selectors: seq<SelectorRange>, range: SelectorRange)
    requires Threaded(elements, selectors)
    ensures Threaded(elements, selectors + [range])
  {
    forall i: nat | i < |elements|
      ensures ThreadedAt(elements, selectors + [range], i)
    {
      assert ThreadedAt(elements, selectors, i);
    }
  }

  lemma SelectorInside(text: string, p: nat)
    ensures Selector(text, p).Some? ==> p < Selector(text, p).value.1 <= |text|
  {
    hide Selector;
  }

  lemma ResolveNone(L: Layout)
    ensures ResolveCalls(L, 0) == Some(L)
  {
  }

  lemma ResolveRowIs(L: Layout, i: nat)
    requires i < |L.elements|
    ensures ResolveRow(L, i) ==
              var e := L.elements[i];
              var target := e.callableIndex + e.callOffset;
              var backward := e.callOffset <= 0;
              if e.kind != Call then Some(L)
              else if target < 0 || target >= |L.callables| then None
              else if backward && !L.callables[target].hasBackwardCall then
                Some(L.(elements := L.elements[i := e.(targetCallable := target, backwardCall := backward)],
                        callables := L.callables[target := L.callables[target].(hasBackwardCall := true)],
                        backwardCallables := L.backwardCallables + 1))
              else Some(L.(elements := L.elements[i := e.(targetCallable := target, backwardCall := backward)]))
  {
  }
}
