// Every layout text the compiler accepts yields a well-formed element table.
module LayoutParserSound {
  import opened Common
  import opened LayoutModel
  import opened LayoutParser

  /** The tables of a parser state seen as a layout, and the recorded tree. */
  function TablesOf(st: ParseState): Layout {
    Layout(st.elements, st.bands, st.callables, st.selectors, 0)
  }

  function ShapeOf(st: ParseState): Shape {
    Shape(st.parent, st.owner)
  }

  /** Row p is still being filled. */
  ghost predicate Open(st: ParseState, p: nat) {
    exists k: nat :: k < |st.frames| && FrameParent(st, k) == p
  }

  function FrameParent(st: ParseState, k: nat): nat
    requires k < |st.frames|
  {
    st.frames[k].parent
  }

  /** Row i is as RowOk demands, except that open unions may lack cases and calls are not yet resolved. */
  ghost predicate RowIn(st: ParseState, i: nat)
    requires i < |st.elements| == |st.parent| && |st.owner| == |st.bands|
  {
    var e := st.elements[i];
    && Within(e.firstChild, |st.elements|) && Within(e.nextSibling, |st.elements|)
    && (e.firstChild != NO_INDEX ==> i < e.firstChild && st.parent[e.firstChild] == i)
    && (e.nextSibling != NO_INDEX ==> i < e.nextSibling && st.parent[e.nextSibling] == st.parent[i])
    && (HasBand(e) <==> e.bandIndex != NO_INDEX)
    && (HasBand(e) ==> e.bandIndex < |st.bands| && st.owner[e.bandIndex] == i)
    && e.outputSize <= 4
    && (i == 0 <==> e.kind == Sequence)
    && (i == 0 ==> e.nextSibling == NO_INDEX)
    && (i > 0 ==> st.parent[i] < i && NestOk(st.elements[st.parent[i]].kind, e.kind))
    && (e.kind == Callable ==> e.callableIndex < |st.callables| && st.callables[e.callableIndex].elementIndex == i)
    && (e.kind == Call ==>
          && e.callableIndex < |st.callables|
          && (e.callableIndex + 1 < |st.callables| ==> i < st.callables[e.callableIndex + 1].elementIndex))
    && e.selectorOffset + e.selectorCount <= |st.selectors|
    && (e.kind == Union ==> Open(st, i) || e.firstChild != NO_INDEX)
    && (e.kind == UnionCase ==>
          && (e.selectorCount == 0 ==> e.nextSibling == NO_INDEX)
          && (e.nextSibling == NO_INDEX && e.selectorCount != 0 ==> Open(st, st.parent[i])))
  }

  /** Frame k stands for an open row and knows its last child. */
  ghost predicate FrameIn(st: ParseState, k: nat)
    requires k < |st.frames| && |st.elements| == |st.parent|
  {
    var f := st.frames[k];
    && f.parent < |st.elements|
    && (f.kind == UnionFrame <==> st.elements[f.parent].kind == Union)
    && (f.kind == SequenceFrame ==>
          st.elements[f.parent].kind in {Sequence, Callable, Replication, UnionCase})
    && (k == 0 ==> f.parent == 0 && f.kind == SequenceFrame && !f.hasClosingBracket && f.callableIndex == NO_INDEX)
    && (k > 0 ==> st.frames[k - 1].parent < f.parent && (f.kind == SequenceFrame ==> f.hasClosingBracket))
    && (f.callableIndex == NO_INDEX || (|st.callables| > 0 && f.callableIndex == |st.callables| - 1))
    && (st.elements[f.parent].firstChild == NO_INDEX <==> f.lastChild == NO_INDEX)
    && (f.lastChild != NO_INDEX ==>
          && 1 <= f.lastChild < |st.elements| && st.parent[f.lastChild] == f.parent
          && st.elements[f.lastChild].nextSibling == NO_INDEX)
    && (f.kind == UnionFrame ==>
          (f.sawDefault <==> f.lastChild != NO_INDEX && st.elements[f.lastChild].selectorCount == 0))
  }

  /** Frame k against row i: i is no later child than the last one, and the rows behind the parent are below it. */
  predicate FrameRowIn(st: ParseState, k: nat, i: nat)
    requires k < |st.frames| && i < |st.parent|
  {
    var f := st.frames[k];
    && (i > 0 && st.parent[i] == f.parent ==> f.lastChild != NO_INDEX && i <= f.lastChild)
    && (i > f.parent ==> st.parent[i] >= f.parent)
  }

  /** The tables never outgrow the text read so far. */
  predicate Bounded(st: ParseState) {
    && |st.elements| <= st.position + 1 && |st.bands| <= st.position && |st.callables| <= st.position
    && |st.selectors| <= st.position && |st.frames| <= st.position + 1
  }

  ghost predicate Inv(st: ParseState) {
    && 0 < |st.elements| == |st.parent| && |st.owner| == |st.bands|
    && |st.elements| < NO_INDEX && |st.bands| < NO_INDEX && |st.callables| < NO_INDEX
    && (forall i: nat :: i < |st.elements| ==> RowIn(st, i))
    && (forall i: nat, k: nat :: i < k < |st.elements| ==> PairOk(TablesOf(st), ShapeOf(st), i, k))
    && (forall k: nat :: k < |st.frames| ==> FrameIn(st, k))
    && (forall k: nat, i: nat :: k < |st.frames| && i < |st.parent| ==> FrameRowIn(st, k, i))
    && (forall b: nat :: b < |st.bands| ==> BandOk(TablesOf(st), ShapeOf(st), b))
    && (forall a: nat, b: nat :: a < b < |st.bands| ==> st.owner[a] < st.owner[b])
    && (forall c: nat :: c < |st.callables| ==> CallableOk(TablesOf(st), c))
    && (forall c: nat :: c < |st.callables| ==> !st.callables[c].hasBackwardCall)
    && (forall c: nat, d: nat :: c < d < |st.callables| ==>
          st.callables[c].elementIndex < st.callables[d].elementIndex)
  }

  //
  // Appending one row
  //

  /** The general form of every table update: append row e, its band or callable, its selectors, and maybe a frame. */
  function Append(st: ParseState, e: Element, band: seq<Band>, entry: seq<CallableEntry>, selectors: seq<SelectorRange>,
                  sawDefault: bool, push: seq<ParseFrame>, position: nat): ParseState
    requires st.frames != []
  {
    var n := |st.elements|;
    var top := Top(st);
    ParseState(
      Link(st.elements, top.parent, top.lastChild) + [e], st.bands + band, st.callables + entry, selectors,
      st.frames[..|st.frames| - 1] + [top.(lastChild := n, sawDefault := sawDefault)] + push,
      position, st.parent + [top.parent], if band == [] then st.owner else st.owner + [n])
  }

  /** What the appended row must look like. */
  ghost predicate Fresh(st: ParseState, e: Element, band: seq<Band>, entry: seq<CallableEntry>,
                        selectors: seq<SelectorRange>, sawDefault: bool, push: seq<ParseFrame>)
    requires st.frames != []
  {
    var n := |st.elements|;
    var top := Top(st);
    && top.parent < n
    && e.firstChild == NO_INDEX && e.nextSibling == NO_INDEX && e.outputSize <= 4
    && NestOk(st.elements[top.parent].kind, e.kind)
    && (HasBand(e) <==> e.bandIndex != NO_INDEX)
    && (if HasBand(e) then e.bandIndex == |st.bands| && |band| == 1 else band == [])
    && (if e.kind == Callable then
          && e.callableIndex == |st.callables| && entry == [CallableEntry(n, false)] && |st.frames| == 1
        else entry == [])
    && (e.kind == Call ==> 0 < |st.callables| && e.callableIndex == |st.callables| - 1)
    && st.selectors <= selectors
    && (if e.kind == UnionCase then
          && !top.sawDefault && (sawDefault <==> e.selectorCount == 0)
          && e.selectorOffset == |st.selectors| && e.selectorCount == |selectors| - |st.selectors|
        else e.selectorOffset == 0 && e.selectorCount == 0 && selectors == st.selectors && sawDefault == top.sawDefault)
    && (if e.kind in {Callable, Replication, Union, UnionCase} then
          |push| == 1 && FrameFor(st, e, push[0])
        else push == [])
  }

  predicate FrameFor(st: ParseState, e: Element, f: ParseFrame)
    requires st.frames != []
  {
    && f.parent == |st.elements| && f.lastChild == NO_INDEX && !f.sawDefault
    && (f.kind == UnionFrame <==> e.kind == Union)
    && (f.kind == SequenceFrame ==> f.hasClosingBracket)
    && f.callableIndex == if e.kind == Callable then |st.callables| else Top(st).callableIndex
  }

  /** The new case is disjoint from every earlier case of its union. */
  ghost predicate NewCaseApart(st: ParseState, e: Element, selectors: seq<SelectorRange>)
    requires st.frames != []
  {
    e.kind == UnionCase ==>
      forall i: nat, v: int ::
        (1 <= i < |st.elements| && i < |st.parent| && st.parent[i] == Top(st).parent && Contains(TablesOf(st), i, v)) ==>
        !exists k :: |st.selectors| <= k < |selectors| && selectors[k].first <= v <= selectors[k].last
  }

  /** The top frame's parent and last child are earlier rows. */
  lemma TopRows(st: ParseState)
    requires st.frames != [] && Inv(st)
    ensures var top := Top(st);
      && top.parent < |st.elements|
      && (top.lastChild != NO_INDEX ==> 1 <= top.lastChild < |st.elements| && top.parent < top.lastChild)
  {
    hide RowIn; hide FrameRowIn; hide PairOk;
    assert FrameIn(st, |st.frames| - 1);
    if Top(st).lastChild != NO_INDEX {
      LaterThanParent(st, Top(st).lastChild);
    }
  }

  /** The tables after an append, spelled out. */
  lemma Appended(st: ParseState, e: Element, band: seq<Band>, entry: seq<CallableEntry>, selectors: seq<SelectorRange>,
                 sawDefault: bool, push: seq<ParseFrame>, position: nat)
    requires st.frames != [] && Inv(st) && Fresh(st, e, band, entry, selectors, sawDefault, push)
    ensures var r := Append(st, e, band, entry, selectors, sawDefault, push, position);
            var n := |st.elements|;
            var k := |st.frames| - 1;
            var top := st.frames[k];
      && top.parent < n && |r.elements| == n + 1 == |r.parent| && |r.owner| == |r.bands|
      && (top.lastChild != NO_INDEX ==> 1 <= top.lastChild < n && top.lastChild != top.parent)
      && (forall i: nat :: i < n && i != top.parent && i != top.lastChild ==> r.elements[i] == st.elements[i])
      && (top.lastChild == NO_INDEX ==> r.elements[top.parent] == st.elements[top.parent].(firstChild := n))
      && (top.lastChild != NO_INDEX ==>
            && r.elements[top.parent] == st.elements[top.parent]
            && r.elements[top.lastChild] == st.elements[top.lastChild].(nextSibling := n))
      && r.elements[n] == e
      && r.parent == st.parent + [top.parent] && st.owner <= r.owner
      && r.bands == st.bands + band && r.callables == st.callables + entry && r.selectors == selectors
      && (band != [] ==> r.owner == st.owner + [n])
      && |r.frames| == |st.frames| + |push|
      && (forall j: nat :: j < k ==> r.frames[j] == st.frames[j])
      && r.frames[k] == top.(lastChild := n, sawDefault := sawDefault)
      && (forall j: nat :: j < |push| ==> r.frames[k + 1 + j] == push[j])
  {
    hide RowIn; hide FrameIn; hide FrameRowIn; hide PairOk; hide NestOk; hide FrameFor; hide Contains; hide Fresh;
    TopRows(st);
    FreshSizes(st, e, band, entry, selectors, sawDefault, push);
  }

  lemma FreshSizes(st: ParseState, e: Element, band: seq<Band>, entry: seq<CallableEntry>, selectors: seq<SelectorRange>,
                   sawDefault: bool, push: seq<ParseFrame>)
    requires st.frames != [] && Fresh(st, e, band, entry, selectors, sawDefault, push)
    ensures |band| <= 1 && |entry| <= 1 && |push| <= 1
  {
  }

  lemma LaterThanParent(st: ParseState, i: nat)
    requires Inv(st) && 1 <= i < |st.elements|
    ensures st.parent[i] < i
  {
    assert RowIn(st, i);
  }

  lemma OpenKept(st: ParseState, e: Element, band: seq<Band>, entry: seq<CallableEntry>, selectors: seq<SelectorRange>,
                 sawDefault: bool, push: seq<ParseFrame>, position: nat)
    requires st.frames != [] && Inv(st) && Fresh(st, e, band, entry, selectors, sawDefault, push)
    ensures var r := Append(st, e, band, entry, selectors, sawDefault, push, position);
      && (forall p: nat :: Open(st, p) ==> Open(r, p))
      && Open(r, Top(st).parent) && (push != [] ==> Open(r, |st.elements|))
  {
    Appended(st, e, band, entry, selectors, sawDefault, push, position);
    hide Append; hide RowIn; hide FrameIn; hide Fresh;
    var r := Append(st, e, band, entry, selectors, sawDefault, push, position);
    var k := |st.frames| - 1;
    assert FrameParent(r, k) == Top(st).parent;
    forall p: nat | Open(st, p)
      ensures Open(r, p)
    {
      var j: nat :| j < |st.frames| && FrameParent(st, j) == p;
      assert FrameParent(r, j) == p;
    }
    if push != [] {
      FreshPush(st, e, band, entry, selectors, sawDefault, push);
      assert FrameParent(r, k + 1) == |st.elements|;
    }
  }

  lemma FreshPush(st: ParseState, e: Element, band: seq<Band>, entry: seq<CallableEntry>, selectors: seq<SelectorRange>,
                  sawDefault: bool, push: seq<ParseFrame>)
    requires st.frames != [] && Fresh(st, e, band, entry, selectors, sawDefault, push) && push != []
    ensures |push| == 1 && push[0].parent == |st.elements|
  {
  }

  /** The tables of r extend those of st, and only links of st's rows may differ. */
  ghost predicate Later(st: ParseState, r: ParseState) {
    && |st.elements| == |st.parent| && |st.owner| == |st.bands| && |r.elements| == |r.parent| && |r.owner| == |r.bands|
    && |st.elements| <= |r.elements| && st.parent <= r.parent && st.owner <= r.owner && st.callables <= r.callables
    && |st.selectors| <= |r.selectors|
    && (forall j: nat :: j < |st.elements| ==> r.elements[j].kind == st.elements[j].kind)
    && (forall c: nat :: |st.callables| <= c < |r.callables| ==> r.callables[c].elementIndex >= |st.elements|)
    && (forall p: nat :: Open(st, p) ==> Open(r, p))
  }

  lemma RowUntouched(st: ParseState, r: ParseState, i: nat)
    requires Later(st, r) && i < |st.elements| && RowIn(st, i) && r.elements[i] == st.elements[i]
    ensures RowIn(r, i)
  {
    hide Open; hide NestOk;
  }

  /** A row without children gets its first one. */
  lemma RowGetsChild(st: ParseState, r: ParseState, i: nat)
    requires Later(st, r) && i < |st.elements| < |r.elements| && RowIn(st, i) && |st.elements| < NO_INDEX
    requires r.elements[i] == st.elements[i].(firstChild := |st.elements|) && r.parent[|st.elements|] == i
    ensures RowIn(r, i)
  {
    hide Open; hide NestOk;
  }

  /** The last child of an open row gets a sibling. */
  lemma RowGetsSibling(st: ParseState, r: ParseState, i: nat)
    requires Later(st, r) && 0 < i < |st.elements| < |r.elements| && RowIn(st, i) && |st.elements| < NO_INDEX
    requires r.elements[i] == st.elements[i].(nextSibling := |st.elements|) && r.parent[|st.elements|] == st.parent[i]
    requires st.elements[i].kind == UnionCase ==> st.elements[i].selectorCount != 0
    ensures RowIn(r, i)
  {
    hide Open; hide NestOk;
  }

  lemma AppendLater(st: ParseState, e: Element, band: seq<Band>, entry: seq<CallableEntry>, selectors: seq<SelectorRange>,
                    sawDefault: bool, push: seq<ParseFrame>, position: nat)
    requires st.frames != [] && Inv(st) && Fresh(st, e, band, entry, selectors, sawDefault, push)
    ensures Later(st, Append(st, e, band, entry, selectors, sawDefault, push, position))
  {
    Appended(st, e, band, entry, selectors, sawDefault, push, position);
    OpenKept(st, e, band, entry, selectors, sawDefault, push, position);
    FreshFacts(st, e, band, entry, selectors, sawDefault, push);
    hide Append; hide Open; hide Fresh; hide RowIn; hide FrameIn; hide FrameRowIn; hide PairOk; hide BandOk; hide CallableOk;
    var r := Append(st, e, band, entry, selectors, sawDefault, push, position);
    forall j: nat | j < |st.elements|
      ensures r.elements[j].kind == st.elements[j].kind
    {
    }
  }

  /** A case that gets a sibling is not the default case. */
  lemma LastCaseSelects(st: ParseState, e: Element)
    requires st.frames != [] && Inv(st) && Top(st).lastChild != NO_INDEX && Top(st).parent < |st.elements|
    requires NestOk(st.elements[Top(st).parent].kind, e.kind) && (e.kind == UnionCase ==> !Top(st).sawDefault)
    ensures var i := Top(st).lastChild;
      && 0 < i < |st.elements| && st.parent[i] == Top(st).parent
      && (st.elements[i].kind == UnionCase ==> st.elements[i].selectorCount != 0)
  {
    InvAt(st, |st.frames| - 1, 0);
    InvAt(st, |st.frames| - 1, Top(st).lastChild);
    hide Inv; hide Open;
  }

  lemma AppendOldRow(st: ParseState, e: Element, band: seq<Band>, entry: seq<CallableEntry>, selectors: seq<SelectorRange>,
                     sawDefault: bool, push: seq<ParseFrame>, position: nat, i: nat)
    requires st.frames != [] && Inv(st) && Fresh(st, e, band, entry, selectors, sawDefault, push)
    requires |st.elements| + 1 < NO_INDEX && i < |st.elements|
    ensures var r := Append(st, e, band, entry, selectors, sawDefault, push, position);
            |r.elements| == |r.parent| && |r.owner| == |r.bands| && RowIn(r, i)
  {
    Appended(st, e, band, entry, selectors, sawDefault, push, position);
    AppendLater(st, e, band, entry, selectors, sawDefault, push, position);
    FreshFacts(st, e, band, entry, selectors, sawDefault, push);
    InvAt(st, |st.frames| - 1, i);
    hide Append; hide Open; hide NestOk; hide Fresh; hide Later; hide RowIn; hide FrameIn;
    var r := Append(st, e, band, entry, selectors, sawDefault, push, position);
    if Top(st).lastChild == NO_INDEX && i == Top(st).parent {
      RowGetsChild(st, r, i);
    } else if Top(st).lastChild != NO_INDEX && i == Top(st).lastChild {
      LastCaseSelects(st, e);
      RowGetsSibling(st, r, i);
    } else {
      RowUntouched(st, r, i);
    }
  }

  lemma InvAt(st: ParseState, k: nat, i: nat)
    requires Inv(st) && k < |st.frames| && i < |st.elements|
    ensures |st.elements| == |st.parent| && |st.owner| == |st.bands| && FrameIn(st, k) && RowIn(st, i)
  {
    hide FrameIn; hide RowIn; hide FrameRowIn; hide PairOk; hide BandOk; hide CallableOk;
  }

  lemma FreshFacts(st: ParseState, e: Element, band: seq<Band>, entry: seq<CallableEntry>, selectors: seq<SelectorRange>,
                   sawDefault: bool, push: seq<ParseFrame>)
    requires st.frames != [] && Fresh(st, e, band, entry, selectors, sawDefault, push)
    ensures Top(st).parent < |st.elements| && st.selectors <= selectors && |band| <= 1 && |entry| <= 1 && |push| <= 1
    ensures e.kind == UnionCase ==> !Top(st).sawDefault
    ensures NestOk(st.elements[Top(st).parent].kind, e.kind)
    ensures push != [] ==> push[0].parent == |st.elements| && push[0].lastChild == NO_INDEX
    ensures entry != [] ==> entry[0].elementIndex == |st.elements|
  {
  }

  lemma AppendNewRow(st: ParseState, e: Element, band: seq<Band>, entry: seq<CallableEntry>, selectors: seq<SelectorRange>,
                     sawDefault: bool, push: seq<ParseFrame>, position: nat)
    requires st.frames != [] && Inv(st) && Fresh(st, e, band, entry, selectors, sawDefault, push)
    requires |st.elements| + 1 < NO_INDEX
    ensures var r := Append(st, e, band, entry, selectors, sawDefault, push, position);
            |r.elements| == |r.parent| && |r.owner| == |r.bands| && RowIn(r, |st.elements|)
  {
    Appended(st, e, band, entry, selectors, sawDefault, push, position);
    OpenKept(st, e, band, entry, selectors, sawDefault, push, position);
    hide Append; hide Open;
  }

  /** Rows keep the values their selectors contain while the selector table grows. */
  lemma ContainsKept(st: ParseState, r: ParseState, i: nat, v: int)
    requires i < |st.elements| <= |r.elements| && st.selectors <= r.selectors
    requires r.elements[i].selectorOffset == st.elements[i].selectorOffset
    requires r.elements[i].selectorCount == st.elements[i].selectorCount
    requires st.elements[i].selectorOffset + st.elements[i].selectorCount <= |st.selectors|
    ensures Contains(TablesOf(r), i, v) <==> Contains(TablesOf(st), i, v)
  {
    var off := st.elements[i].selectorOffset;
    assert forall k :: off <= k < off + st.elements[i].selectorCount ==> r.selectors[k] == st.selectors[k];
  }

  lemma AppendPair(st: ParseState, e: Element, band: seq<Band>, entry: seq<CallableEntry>, selectors: seq<SelectorRange>,
                   sawDefault: bool, push: seq<ParseFrame>, position: nat, i: nat, k: nat)
    requires st.frames != [] && Inv(st) && Fresh(st, e, band, entry, selectors, sawDefault, push)
    requires NewCaseApart(st, e, selectors)
    requires i < k <= |st.elements|
    ensures var r := Append(st, e, band, entry, selectors, sawDefault, push, position);
            |r.elements| == |r.parent| && k < |r.elements| && PairOk(TablesOf(r), ShapeOf(r), i, k)
  {
    Appended(st, e, band, entry, selectors, sawDefault, push, position);
    hide Append; hide Open; hide FrameFor; hide Contains;
    var r := Append(st, e, band, entry, selectors, sawDefault, push, position);
    var n := |st.elements|;
    var f := |st.frames| - 1;
    var top := st.frames[f];
    assert FrameIn(st, f) && RowIn(st, i) && FrameRowIn(st, f, i);
    if k < n {
      assert PairOk(TablesOf(st), ShapeOf(st), i, k);
      assert FrameRowIn(st, f, k) && RowIn(st, k);
      forall v: int
        ensures Contains(TablesOf(r), i, v) <==> Contains(TablesOf(st), i, v)
        ensures Contains(TablesOf(r), k, v) <==> Contains(TablesOf(st), k, v)
      {
        ContainsKept(st, r, i, v);
        ContainsKept(st, r, k, v);
      }
    } else {
      AppendNewPair(st, e, band, entry, selectors, sawDefault, push, position, i);
    }
  }

  lemma AppendNewPair(st: ParseState, e: Element, band: seq<Band>, entry: seq<CallableEntry>,
                      selectors: seq<SelectorRange>, sawDefault: bool, push: seq<ParseFrame>, position: nat, i: nat)
    requires st.frames != [] && Inv(st) && Fresh(st, e, band, entry, selectors, sawDefault, push)
    requires NewCaseApart(st, e, selectors) && i < |st.elements|
    ensures var r := Append(st, e, band, entry, selectors, sawDefault, push, position);
            var n := |st.elements|;
            |r.elements| == |r.parent| == n + 1 && PairOk(TablesOf(r), ShapeOf(r), i, n)
  {
    Appended(st, e, band, entry, selectors, sawDefault, push, position);
    hide Append; hide Open; hide FrameFor; hide Contains;
    var r := Append(st, e, band, entry, selectors, sawDefault, push, position);
    var n := |st.elements|;
    var f := |st.frames| - 1;
    var top := st.frames[f];
    assert FrameIn(st, f) && RowIn(st, i) && FrameRowIn(st, f, i);
    if i > 0 && st.parent[i] == top.parent && i < top.lastChild {
      assert PairOk(TablesOf(st), ShapeOf(st), i, top.lastChild);
    }
    forall v: int | 1 <= i && st.parent[i] == top.parent && st.elements[i].kind == UnionCase && Contains(TablesOf(r), i, v)
      ensures !Contains(TablesOf(r), n, v)
    {
      ContainsKept(st, r, i, v);
      NewCaseOnly(st, r, e, selectors, v);
    }
  }

  /** What the new case contains, its own selectors contain. */
  lemma NewCaseOnly(st: ParseState, r: ParseState, e: Element, selectors: seq<SelectorRange>, v: int)
    requires |r.elements| == |st.elements| + 1 && r.elements[|st.elements|] == e && r.selectors == selectors
    requires st.selectors <= selectors
    requires e.kind == UnionCase ==> e.selectorOffset == |st.selectors|
    requires e.kind == UnionCase ==> e.selectorCount == |selectors| - |st.selectors|
    requires e.kind != UnionCase ==> e.selectorCount == 0
    ensures Contains(TablesOf(r), |st.elements|, v) ==>
              e.kind == UnionCase && exists k :: |st.selectors| <= k < |selectors| && selectors[k].first <= v <= selectors[k].last
  {
  }

  /** Frames below the top only see more rows. */
  lemma AppendLowerFrame(st: ParseState, e: Element, band: seq<Band>, entry: seq<CallableEntry>,
                         selectors: seq<SelectorRange>, sawDefault: bool, push: seq<ParseFrame>, position: nat, j: nat)
    requires st.frames != [] && Inv(st) && Fresh(st, e, band, entry, selectors, sawDefault, push)
    requires j < |st.frames| - 1
    ensures var r := Append(st, e, band, entry, selectors, sawDefault, push, position);
            |r.elements| == |r.parent| && j < |r.frames| && FrameIn(r, j)
  {
    Appended(st, e, band, entry, selectors, sawDefault, push, position);
    FreshCallable(st, e, band, entry, selectors, sawDefault, push);
    hide Append; hide Open; hide Fresh; hide RowIn; hide PairOk;
    var f := |st.frames| - 1;
    assert FrameIn(st, f);
    assert FrameIn(st, j);
    ParentsRise(st, j, f);
  }

  lemma FreshCallable(st: ParseState, e: Element, band: seq<Band>, entry: seq<CallableEntry>,
                      selectors: seq<SelectorRange>, sawDefault: bool, push: seq<ParseFrame>)
    requires st.frames != [] && Fresh(st, e, band, entry, selectors, sawDefault, push)
    ensures entry == [] || (|st.frames| == 1 && |entry| == 1 && e.kind == Callable)
  {
  }

  lemma AppendTopFrame(st: ParseState, e: Element, band: seq<Band>, entry: seq<CallableEntry>,
                       selectors: seq<SelectorRange>, sawDefault: bool, push: seq<ParseFrame>, position: nat)
    requires st.frames != [] && Inv(st) && Fresh(st, e, band, entry, selectors, sawDefault, push)
    requires |st.elements| + 1 < NO_INDEX
    ensures var r := Append(st, e, band, entry, selectors, sawDefault, push, position);
            |r.elements| == |r.parent| && |st.frames| <= |r.frames| && FrameIn(r, |st.frames| - 1)
  {
    Appended(st, e, band, entry, selectors, sawDefault, push, position);
    hide Append; hide Open; hide RowIn; hide PairOk; hide FrameFor; hide FrameRowIn;
    var f := |st.frames| - 1;
    assert FrameIn(st, f);
    FreshFacts(st, e, band, entry, selectors, sawDefault, push);
  }

  lemma AppendPushed(st: ParseState, e: Element, band: seq<Band>, entry: seq<CallableEntry>,
                     selectors: seq<SelectorRange>, sawDefault: bool, push: seq<ParseFrame>, position: nat)
    requires st.frames != [] && Inv(st) && Fresh(st, e, band, entry, selectors, sawDefault, push) && push != []
    ensures var r := Append(st, e, band, entry, selectors, sawDefault, push, position);
            |r.elements| == |r.parent| && |st.frames| < |r.frames| && FrameIn(r, |st.frames|)
  {
    Appended(st, e, band, entry, selectors, sawDefault, push, position);
    hide Append; hide Open; hide RowIn; hide PairOk; hide FrameRowIn;
    assert FrameIn(st, |st.frames| - 1);
  }

  lemma AppendFrame(st: ParseState, e: Element, band: seq<Band>, entry: seq<CallableEntry>, selectors: seq<SelectorRange>,
                    sawDefault: bool, push: seq<ParseFrame>, position: nat, j: nat)
    requires st.frames != [] && Inv(st) && Fresh(st, e, band, entry, selectors, sawDefault, push)
    requires j < |st.frames| + |push| && |st.elements| + 1 < NO_INDEX
    ensures var r := Append(st, e, band, entry, selectors, sawDefault, push, position);
            |r.elements| == |r.parent| && j < |r.frames| && FrameIn(r, j)
  {
    hide Append; hide Open; hide RowIn; hide PairOk; hide FrameRowIn; hide FrameIn; hide Fresh; hide Inv;
    FreshFacts(st, e, band, entry, selectors, sawDefault, push);
    if j < |st.frames| - 1 {
      AppendLowerFrame(st, e, band, entry, selectors, sawDefault, push, position, j);
    } else if j == |st.frames| - 1 {
      AppendTopFrame(st, e, band, entry, selectors, sawDefault, push, position);
    } else {
      AppendPushed(st, e, band, entry, selectors, sawDefault, push, position);
    }
  }

  /** Frames stand for ever later rows. */
  lemma {:induction false} ParentsRise(st: ParseState, a: nat, b: nat)
    requires Inv(st) && a <= b < |st.frames|
    ensures st.frames[a].parent <= st.frames[b].parent && (a < b ==> st.frames[a].parent < st.frames[b].parent)
    decreases b - a
  {
    if a < b {
      ParentsRise(st, a, b - 1);
      assert FrameIn(st, b);
    }
  }

  lemma AppendFrameRow(st: ParseState, e: Element, band: seq<Band>, entry: seq<CallableEntry>,
                       selectors: seq<SelectorRange>, sawDefault: bool, push: seq<ParseFrame>, position: nat, j: nat, i: nat)
    requires st.frames != [] && Inv(st) && Fresh(st, e, band, entry, selectors, sawDefault, push)
    requires j < |st.frames| + |push| && i <= |st.elements|
    ensures var r := Append(st, e, band, entry, selectors, sawDefault, push, position);
            j < |r.frames| && i < |r.parent| && FrameRowIn(r, j, i)
  {
    Appended(st, e, band, entry, selectors, sawDefault, push, position);
    FreshFacts(st, e, band, entry, selectors, sawDefault, push);
    hide Append; hide Open; hide RowIn; hide PairOk; hide FrameFor; hide NestOk; hide Fresh;
    var f := |st.frames| - 1;
    assert FrameIn(st, f);
    if j <= f {
      ParentsRise(st, j, f);
      if i < |st.elements| { assert FrameRowIn(st, j, i); }
    } else if 1 <= i < |st.elements| {
      LaterThanParent(st, i);
    }
  }

  /** Appending one well-shaped row, with its frame, keeps the invariant. */
  lemma AppendKeeps(st: ParseState, e: Element, band: seq<Band>, entry: seq<CallableEntry>, selectors: seq<SelectorRange>,
                    sawDefault: bool, push: seq<ParseFrame>, position: nat)
    requires st.frames != [] && Inv(st) && Fresh(st, e, band, entry, selectors, sawDefault, push)
    requires NewCaseApart(st, e, selectors) && |st.elements| + 1 < NO_INDEX
    requires |st.bands| + 1 < NO_INDEX && |st.callables| + 1 < NO_INDEX
    ensures Inv(Append(st, e, band, entry, selectors, sawDefault, push, position))
  {
    Appended(st, e, band, entry, selectors, sawDefault, push, position);
    var r := Append(st, e, band, entry, selectors, sawDefault, push, position);
    FreshSizes(st, e, band, entry, selectors, sawDefault, push);
    hide Append; hide Open; hide Fresh; hide RowIn; hide FrameIn; hide FrameRowIn; hide PairOk; hide NewCaseApart;
    forall i: nat | i < |r.elements|
      ensures RowIn(r, i)
    {
      if i < |st.elements| {
        AppendOldRow(st, e, band, entry, selectors, sawDefault, push, position, i);
      } else {
        AppendNewRow(st, e, band, entry, selectors, sawDefault, push, position);
      }
    }
    forall i: nat, k: nat | i < k < |r.elements|
      ensures PairOk(TablesOf(r), ShapeOf(r), i, k)
    {
      AppendPair(st, e, band, entry, selectors, sawDefault, push, position, i, k);
    }
    forall j: nat | j < |r.frames|
      ensures FrameIn(r, j)
    {
      AppendFrame(st, e, band, entry, selectors, sawDefault, push, position, j);
    }
    forall j: nat, i: nat | j < |r.frames| && i < |r.parent|
      ensures FrameRowIn(r, j, i)
    {
      AppendFrameRow(st, e, band, entry, selectors, sawDefault, push, position, j, i);
    }
    AppendTables(st, e, band, entry, selectors, sawDefault, push, position);
  }

  lemma AppendTables(st: ParseState, e: Element, band: seq<Band>, entry: seq<CallableEntry>, selectors: seq<SelectorRange>,
                     sawDefault: bool, push: seq<ParseFrame>, position: nat)
    requires st.frames != [] && Inv(st) && Fresh(st, e, band, entry, selectors, sawDefault, push)
    ensures var r := Append(st, e, band, entry, selectors, sawDefault, push, position);
      && |r.elements| == |r.parent| && |r.owner| == |r.bands|
      && (forall b: nat :: b < |r.bands| ==> BandOk(TablesOf(r), ShapeOf(r), b))
      && (forall a: nat, b: nat :: a < b < |r.bands| ==> r.owner[a] < r.owner[b])
      && (forall c: nat :: c < |r.callables| ==> CallableOk(TablesOf(r), c))
      && (forall c: nat :: c < |r.callables| ==> !r.callables[c].hasBackwardCall)
      && (forall c: nat, d: nat :: c < d < |r.callables| ==> r.callables[c].elementIndex < r.callables[d].elementIndex)
  {
    Appended(st, e, band, entry, selectors, sawDefault, push, position);
    var r := Append(st, e, band, entry, selectors, sawDefault, push, position);
    hide Append; hide Open; hide FrameFor; hide NestOk;
    assert FrameIn(st, |st.frames| - 1);
    assert band == [] ==> r.owner == st.owner;
    forall b: nat | b < |r.bands|
      ensures BandOk(TablesOf(r), ShapeOf(r), b)
    {
      if b < |st.bands| { assert BandOk(TablesOf(st), ShapeOf(st), b); }
    }
    forall a: nat, b: nat | a < b < |r.bands|
      ensures r.owner[a] < r.owner[b]
    {
      assert BandOk(TablesOf(st), ShapeOf(st), a);
    }
    forall c: nat | c < |r.callables|
      ensures CallableOk(TablesOf(r), c)
    {
      if c < |st.callables| { assert CallableOk(TablesOf(st), c); }
    }
    forall c: nat, d: nat | c < d < |r.callables|
      ensures r.callables[c].elementIndex < r.callables[d].elementIndex
    {
      assert CallableOk(TablesOf(st), c);
    }
  }

  //
  // The turns of the parser
  //

  lemma StartInv()
    ensures Inv(START) && Bounded(START)
  {
    assert FrameParent(START, 0) == 0;
  }

  /** Closing the top frame keeps the invariant: a closed union has its default case. */
  lemma PopKeeps(st: ParseState, position: nat)
    requires st.frames != [] && Inv(st)
    requires Top(st).kind == UnionFrame ==> Top(st).sawDefault
    ensures Inv(PopFrame(st).(position := position))
  {
    hide NestOk;
    var r := PopFrame(st).(position := position);
    var k := |st.frames| - 1;
    assert FrameIn(st, k);
    forall p: nat | Open(st, p) && p != st.frames[k].parent
      ensures Open(r, p)
    {
      var j: nat :| j < |st.frames| && FrameParent(st, j) == p;
      assert FrameParent(r, j) == p;
    }
    forall i: nat | i < |r.elements|
      ensures RowIn(r, i)
    {
      hide Open;
      PopRow(st, r, i);
    }
    forall i: nat, j: nat | i < j < |r.elements|
      ensures PairOk(TablesOf(r), ShapeOf(r), i, j)
    {
      assert TablesOf(r) == TablesOf(st) && ShapeOf(r) == ShapeOf(st);
      assert PairOk(TablesOf(st), ShapeOf(st), i, j);
    }
    forall j: nat | j < |r.frames|
      ensures FrameIn(r, j)
    {
      assert FrameIn(st, j);
    }
    forall j: nat, i: nat | j < |r.frames| && i < |r.parent|
      ensures FrameRowIn(r, j, i)
    {
      assert FrameRowIn(st, j, i);
    }
    forall b: nat | b < |r.bands|
      ensures BandOk(TablesOf(r), ShapeOf(r), b)
    {
      assert BandOk(TablesOf(st), ShapeOf(st), b);
    }
    forall c: nat | c < |r.callables|
      ensures CallableOk(TablesOf(r), c)
    {
      assert CallableOk(TablesOf(st), c);
    }
  }

  lemma PopRow(st: ParseState, r: ParseState, i: nat)
    requires st.frames != [] && Inv(st) && i < |st.elements|
    requires Top(st).kind == UnionFrame ==> Top(st).sawDefault
    requires r == PopFrame(st).(position := r.position)
    requires forall p: nat :: Open(st, p) && p != Top(st).parent ==> Open(r, p)
    ensures RowIn(r, i)
  {
    hide Open; hide Contains;
    var k := |st.frames| - 1;
    var top := st.frames[k];
    assert FrameIn(st, k) && RowIn(st, i) && FrameRowIn(st, k, i);
    if i > 0 && st.parent[i] == top.parent && i < top.lastChild {
      assert PairOk(TablesOf(st), ShapeOf(st), i, top.lastChild);
    }
  }

  lemma CallableKeeps(text: string, st: ParseState)
    requires st.frames != [] && Inv(st) && Bounded(st) && st.position < |text| <= MAX_LAYOUT_LENGTH
    requires Top(st).kind == SequenceFrame && ParseCallable(text, st).Some?
    ensures Inv(ParseCallable(text, st).value) && Bounded(ParseCallable(text, st).value)
  {
    hide Inv;
    var n, c := |st.elements|, |st.callables|;
    var e := Element(Callable, callableIndex := c);
    var f := ParseFrame(SequenceFrame, n, callableIndex := c, hasClosingBracket := true);
    TopFacts(st);
    AppendKeeps(st, e, [], [CallableEntry(n, false)], st.selectors, Top(st).sawDefault, [f], st.position + 1);
    assert ParseCallable(text, st).value
        == Append(st, e, [], [CallableEntry(n, false)], st.selectors, Top(st).sawDefault, [f], st.position + 1);
  }

  /** What the invariant says of the top frame. */
  lemma TopFacts(st: ParseState)
    requires st.frames != [] && Inv(st)
    ensures var top := Top(st);
      && top.parent < |st.elements|
      && (top.kind == UnionFrame <==> st.elements[top.parent].kind == Union)
      && (top.kind == SequenceFrame ==> st.elements[top.parent].kind in {Sequence, Callable, Replication, UnionCase})
      && (top.callableIndex == NO_INDEX || (|st.callables| > 0 && top.callableIndex == |st.callables| - 1))
      && |st.elements| == |st.parent| && |st.owner| == |st.bands|
      && (top.parent == 0 ==> st.elements[top.parent].kind == Sequence)
  {
    assert FrameIn(st, |st.frames| - 1);
    assert RowIn(st, 0);
  }

  lemma BandedKeeps(st: ParseState, e: Element, coding: CodingKind, push: seq<ParseFrame>, position: nat)
    requires st.frames != [] && Inv(st) && Bounded(st) && Top(st).kind == SequenceFrame
    requires st.position < position <= MAX_LAYOUT_LENGTH
    requires HasBand(e) && e.firstChild == NO_INDEX && e.nextSibling == NO_INDEX && e.outputSize <= 4
    requires e.selectorOffset == 0 && e.selectorCount == 0
    requires if e.kind in {Replication, Union} then |push| == 1 && FrameFor(st, e, push[0]) else push == []
    ensures var st1 := AddBanded(st.(position := position), e, coding);
            var r := st1.(frames := st1.frames + push);
            Inv(r) && Bounded(r)
  {
    hide Inv;
    TopFacts(st);
    var e1 := e.(bandIndex := |st.bands|);
    var band := Band(coding, e.reference, e.outputSize, e.nullable);
    AppendKeeps(st, e1, [band], [], st.selectors, Top(st).sawDefault, push, position);
    var st1 := AddBanded(st.(position := position), e, coding);
    assert st1.(frames := st1.frames + push)
        == Append(st, e1, [band], [], st.selectors, Top(st).sawDefault, push, position);
  }

  lemma CallKeeps(text: string, st: ParseState)
    requires st.frames != [] && Inv(st) && Bounded(st) && st.position < |text| <= MAX_LAYOUT_LENGTH
    requires Top(st).kind == SequenceFrame && ParseCall(text, st).Some?
    ensures Inv(ParseCall(text, st).value) && Bounded(ParseCall(text, st).value)
  {
    hide Inv;
    TopFacts(st);
    var n := Number(text, st.position + 1).value;
    var e := Element(Call, callOffset := n.0, callableIndex := Top(st).callableIndex);
    AppendKeeps(st, e, [], [], st.selectors, Top(st).sawDefault, [], n.1 + 1);
    assert ParseCall(text, st).value == Append(st, e, [], [], st.selectors, Top(st).sawDefault, [], n.1 + 1);
  }

  /** A range that overlaps no prior case overlaps no selector of any child of the union from row c on. */
  lemma {:induction false} ChainApart(st: ParseState, selectors: seq<SelectorRange>, p: nat, c: nat, range: SelectorRange,
                                      i: nat, k: nat)
    requires Inv(st) && st.selectors <= selectors && p < |st.elements|
    requires 1 <= c <= i < |st.elements| && st.parent[c] == p && st.parent[i] == p
    requires !AnyOverlap(st.elements, selectors, c, range)
    requires st.elements[i].selectorOffset <= k < st.elements[i].selectorOffset + st.elements[i].selectorCount
    ensures k < |st.selectors| && !Overlap(st.selectors[k], range)
    decreases i - c
  {
    hide Open; hide NestOk; hide Contains;
    assert RowIn(st, i) && RowIn(st, c);
    if c < i {
      assert PairOk(TablesOf(st), ShapeOf(st), c, i);
      var next := st.elements[c].nextSibling;
      ChainApart(st, selectors, p, next, range, i, k);
    }
  }

  /** Every selector a case adds overlaps none of the earlier cases. */
  lemma {:induction false} SelectorsApart(text: string, p: nat, st: ParseState, selectors: seq<SelectorRange>, prior: nat, k: nat)
    requires Selectors(text, p, st.elements, selectors, prior).Some?
    requires |selectors| <= k < |Selectors(text, p, st.elements, selectors, prior).value.0|
    ensures var r := Selectors(text, p, st.elements, selectors, prior).value.0;
            exists acc :: selectors <= acc && !AnyOverlap(st.elements, acc, prior, r[k])
    decreases |text| - p
  {
    hide Selector; hide AnyOverlap;
    var sel := Selector(text, p).value;
    var more := selectors + [sel.0];
    var r := Selectors(text, p, st.elements, selectors, prior).value.0;
    if k == |selectors| {
      assert r[k] == sel.0;
      assert selectors <= selectors && !AnyOverlap(st.elements, selectors, prior, r[k]);
    } else {
      SelectorsApart(text, sel.1 + 1, st, more, prior, k);
      var acc :| more <= acc && !AnyOverlap(st.elements, acc, prior, r[k]);
      assert selectors <= acc;
    }
  }

  /** So the new case is disjoint from all earlier ones. */
  lemma CaseApart(text: string, st: ParseState, e: Element)
    requires st.frames != [] && Inv(st) && st.position <= |text|
    requires var top := Top(st);
             && top.parent < |st.elements|
             && Selectors(text, st.position + 1, st.elements, st.selectors, st.elements[top.parent].firstChild).Some?
    ensures NewCaseApart(st, e, Selectors(text, st.position + 1, st.elements, st.selectors,
                                          st.elements[Top(st).parent].firstChild).value.0)
  {
    hide Open; hide NestOk; hide Selectors; hide AnyOverlap;
    var p := Top(st).parent;
    var first := st.elements[p].firstChild;
    var selectors := Selectors(text, st.position + 1, st.elements, st.selectors, first).value.0;
    forall i: nat, v: int | 1 <= i < |st.elements| && i < |st.parent| && st.parent[i] == p && Contains(TablesOf(st), i, v)
      ensures !exists k :: |st.selectors| <= k < |selectors| && selectors[k].first <= v <= selectors[k].last
    {
      var j :| st.elements[i].selectorOffset <= j < st.elements[i].selectorOffset + st.elements[i].selectorCount
               && j < |st.selectors| && st.selectors[j].first <= v <= st.selectors[j].last;
      FirstReaches(st, p, i);
      forall k | |st.selectors| <= k < |selectors|
        ensures !(selectors[k].first <= v <= selectors[k].last)
      {
        SelectorsApart(text, st.position + 1, st, st.selectors, first, k);
        var acc :| st.selectors <= acc && !AnyOverlap(st.elements, acc, first, selectors[k]);
        ChainApart(st, acc, p, first, selectors[k], i, j);
      }
    }
  }

  lemma FirstReaches(st: ParseState, p: nat, i: nat)
    requires Inv(st) && 1 <= i < |st.elements| && p < |st.elements| && st.parent[i] == p
    ensures 1 <= st.elements[p].firstChild <= i && st.parent[st.elements[p].firstChild] == p
  {
    assert RowIn(st, i) && RowIn(st, p);
    assert PairOk(TablesOf(st), ShapeOf(st), p, i);
  }

  /** Selectors are consumed no faster than characters. */
  lemma {:induction false} SelectorsShort(text: string, p: nat, elements: seq<Element>, selectors: seq<SelectorRange>, prior: nat)
    requires |selectors| <= p && Selectors(text, p, elements, selectors, prior).Some?
    ensures |Selectors(text, p, elements, selectors, prior).value.0| <= Selectors(text, p, elements, selectors, prior).value.1
    decreases |text| - p
  {
    hide Selector; hide AnyOverlap;
    var sel := Selector(text, p).value;
    if At(text, sel.1) == ',' {
      SelectorsShort(text, sel.1 + 1, elements, selectors + [sel.0], prior);
    }
  }

  /** The row and the frame a case opens. */
  function CaseRow(st: ParseState, selectors: seq<SelectorRange>): Element
    requires |st.selectors| <= |selectors|
  {
    Element(UnionCase, selectorOffset := |st.selectors|, selectorCount := |selectors| - |st.selectors|)
  }

  function CaseFrame(st: ParseState): ParseFrame
    requires st.frames != []
  {
    ParseFrame(SequenceFrame, |st.elements|, callableIndex := Top(st).callableIndex, hasClosingBracket := true)
  }

  /** What a case appends. */
  lemma CaseAppends(text: string, st: ParseState)
    requires st.frames != [] && st.position <= |text| && Top(st).parent < |st.elements| && ParseCase(text, st).Some?
    ensures var p := st.position;
      var isDefault := At(text, p + 1) == ')';
      var parsed := if isDefault then Some((st.selectors, p + 2))
                    else Selectors(text, p + 1, st.elements, st.selectors, st.elements[Top(st).parent].firstChild);
      && parsed.Some? && |st.selectors| <= |parsed.value.0| && At(text, parsed.value.1) == '[' && HasRoom(text, st)
      && (isDefault || |st.selectors| < |parsed.value.0|)
      && ParseCase(text, st).value
         == Append(st, CaseRow(st, parsed.value.0), [], [], parsed.value.0, isDefault, [CaseFrame(st)], parsed.value.1 + 1)
  {
    hide Selectors; hide HasRoom;
  }

  lemma CaseKeeps(text: string, st: ParseState)
    requires st.frames != [] && Inv(st) && Bounded(st) && st.position <= |text| <= MAX_LAYOUT_LENGTH
    requires Top(st).kind == UnionFrame && !Top(st).sawDefault && ParseCase(text, st).Some?
    ensures Inv(ParseCase(text, st).value) && Bounded(ParseCase(text, st).value)
  {
    hide Inv; hide Selectors; hide NewCaseApart; hide ParseCase; hide Append;
    TopFacts(st);
    CaseAppends(text, st);
    var p := st.position;
    var isDefault := At(text, p + 1) == ')';
    var prior := st.elements[Top(st).parent].firstChild;
    var sel := if isDefault then (st.selectors, p + 2)
               else Selectors(text, p + 1, st.elements, st.selectors, prior).value;
    var e := CaseRow(st, sel.0);
    if isDefault {
      EmptyCaseApart(st, e);
    } else {
      CaseApart(text, st, e);
      SelectorsShort(text, p + 1, st.elements, st.selectors, prior);
    }
    AppendKeeps(st, e, [], [], sel.0, isDefault, [CaseFrame(st)], sel.1 + 1);
    AppendedSizes(st, e, sel.0, isDefault, CaseFrame(st), sel.1 + 1);
  }

  lemma AppendedSizes(st: ParseState, e: Element, selectors: seq<SelectorRange>, sawDefault: bool, push: ParseFrame, position: nat)
    requires st.frames != []
    ensures var r := Append(st, e, [], [], selectors, sawDefault, [push], position);
      && |r.elements| == |st.elements| + 1 && |r.bands| == |st.bands| && |r.callables| == |st.callables|
      && r.selectors == selectors && |r.frames| == |st.frames| + 1 && r.position == position
  {
  }

  lemma EmptyCaseApart(st: ParseState, e: Element)
    requires st.frames != []
    ensures NewCaseApart(st, e, st.selectors)
  {
  }

  /** Every turn of the parser keeps the invariant. */
  lemma StepKeeps(text: string, st: ParseState)
    requires st.frames != [] && Inv(st) && Bounded(st) && st.position <= |text| <= MAX_LAYOUT_LENGTH
    requires ParseStep(text, st).Some?
    ensures Inv(ParseStep(text, st).value) && Bounded(ParseStep(text, st).value)
  {
    hide Inv; hide ParseCase; hide ParseCallable; hide ParseCall; hide AddBanded;
    var top := Top(st);
    var p := st.position;
    if top.kind == UnionFrame {
      if top.sawDefault { PopKeeps(st, p); } else { CaseKeeps(text, st); }
    } else if p >= |text| {
      PopKeeps(st, p);
    } else {
      match text[p]
      case ']' => PopKeeps(st, p + 1);
      case '[' => CallableKeeps(text, st);
      case '(' => CallKeeps(text, st);
      case _ => BandTokenKeeps(text, st);
    }
  }

  lemma BandTokenKeeps(text: string, st: ParseState)
    requires st.frames != [] && Inv(st) && Bounded(st) && st.position < |text| <= MAX_LAYOUT_LENGTH
    requires Top(st).kind == SequenceFrame && text[st.position] !in {']', '[', '('}
    requires ParseStep(text, st).Some?
    ensures Inv(ParseStep(text, st).value) && Bounded(ParseStep(text, st).value)
  {
    hide Inv; hide AddBanded; hide Bounded;
    var top := Top(st);
    var p := st.position;
    var n := |st.elements|;
    var r := ParseStep(text, st).value;
    match text[p]
    case 'N' =>
      var e := Element(Replication, outputSize := WidthBytes(text[p + 1]));
      BandedKeeps(st, e, if text[p + 1] == 'B' then Byte1 else Unsigned5,
                  [ParseFrame(SequenceFrame, n, callableIndex := top.callableIndex, hasClosingBracket := true)], p + 3);
    case 'T' =>
      var signed := At(text, p + 1) == 'S';
      var q := p + if signed then 2 else 1;
      var width := At(text, q);
      var e := Element(Union, outputSize := WidthBytes(width), signed := signed);
      BandedKeeps(st, e, if signed then Signed5 else if width == 'B' then Byte1 else Unsigned5,
                  [ParseFrame(UnionFrame, n, callableIndex := top.callableIndex)], q + 1);
    case _ => LeafTokenKeeps(text, st);
  }

  lemma LeafTokenKeeps(text: string, st: ParseState)
    requires st.frames != [] && Inv(st) && Bounded(st) && st.position < |text| <= MAX_LAYOUT_LENGTH
    requires Top(st).kind == SequenceFrame && text[st.position] !in {']', '[', '(', 'N', 'T'}
    requires ParseStep(text, st).Some?
    ensures Inv(ParseStep(text, st).value) && Bounded(ParseStep(text, st).value)
  {
    hide Inv; hide AddBanded; hide Bounded;
    var r := ParseStep(text, st).value;
    var p := st.position;
    if text[p] == 'K' || text[p] == 'R' {
      var nullable := At(text, p + 2) == 'N';
      var q := p + if nullable then 3 else 2;
      var e := Element(Reference, reference := ReferenceOf(text[p], text[p + 1]), nullable := nullable,
                       outputSize := WidthBytes(At(text, q)));
      BandedKeeps(st, e, Unsigned5, [], q + 1);
      var st1 := AddBanded(st.(position := q + 1), e, Unsigned5);
      assert st1.(frames := st1.frames + []) == st1;
    } else {
      var st1 := ParseIntegral(text, st).value;
      IntegralForm(text, st);
      var form, width, coding :| IntegralIs(text, st, form, width, coding);
      var e := Element(Integral, bciKind := form.1, outputSize := WidthBytes(width), signed := form.2);
      BandedKeeps(st, e, coding, [], p + form.0 + 1);
      assert st1.(frames := st1.frames + []) == st1;
    }
  }

  ghost predicate IntegralIs(text: string, st: ParseState, form: (nat, BciKind, bool), width: char, coding: CodingKind)
    requires st.frames != [] && st.position < |text|
  {
    && st.position + form.0 + 1 <= |text|
    && ParseIntegral(text, st) ==
         Some(AddBanded(st.(position := st.position + form.0 + 1),
                        Element(Integral, bciKind := form.1, outputSize := WidthBytes(width), signed := form.2), coding))
  }

  lemma IntegralForm(text: string, st: ParseState)
    requires st.frames != [] && st.position < |text| && ParseIntegral(text, st).Some?
    ensures exists form, width, coding :: IntegralIs(text, st, form, width, coding)
  {
    hide AddBanded;
    var p := st.position;
    var token := text[p];
    var next := At(text, p + 1);
    var form: (nat, BciKind, bool) :=
      if IsWidth(token) then (0, NoBci, false)
      else if token == 'S' || token == 'F' then (1, NoBci, token == 'S')
      else if token == 'P' then if next == 'O' then (2, BciPreviousOffset, false) else (1, BciIndex, false)
      else if next == 'S' then (2, BciOffset, true) else (1, BciOffset, false);
    var width := At(text, p + form.0);
    var coding :=
      match form.1
      case NoBci => if form.2 then Signed5 else if width == 'B' then Byte1 else Unsigned5
      case BciIndex => Bci5
      case _ => Branch5;
    assert IntegralIs(text, st, form, width, coding);
  }
}
