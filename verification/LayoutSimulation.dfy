// The parser run on a printed tree: after each subtree the stack is back where it was and the
// tables have grown by exactly that subtree's rows.
module LayoutSimulation {
  import opened Common
  import opened LayoutModel
  import opened LayoutParser
  import opened LayoutParserSound
  import opened LayoutCompile
  import opened LayoutSyntax
  import opened LayoutReading

  ghost predicate Ready(text: string, st: ParseState) {
    st.frames != [] && Inv(st) && Bounded(st) && st.position <= |text| <= MAX_LAYOUT_LENGTH
  }

  /** Parsing from st and from r comes to the same, and r is a sound state. */
  ghost predicate Reaches(text: string, st: ParseState, r: ParseState) {
    && st.position <= |text| && r.position <= |text|
    && Inv(r) && Bounded(r)
    && ParseAll(text, st) == ParseAll(text, r)
  }

  function BaseOf(st: ParseState): Base
    requires st.frames != []
  {
    Base(|st.elements|, Top(st).callableIndex, |st.bands|, |st.selectors|)
  }

  /** The stack is as before except for the top frame's last child. */
  predicate SameStack(st: ParseState, r: ParseState)
    requires st.frames != []
  {
    && |r.frames| == |st.frames|
    && r.frames[..|st.frames| - 1] == st.frames[..|st.frames| - 1]
    && Top(r) == Top(st).(lastChild := Top(r).lastChild)
  }

  /** r is st with rows, bands and selectors appended and `length` characters read. */
  predicate GrownBy(st: ParseState, r: ParseState, elements: seq<Element>, bands: seq<Band>,
                    selectors: seq<SelectorRange>, length: nat)
  {
    && r.elements == elements && r.bands == st.bands + bands && r.selectors == st.selectors + selectors
    && r.callables == st.callables && r.position == st.position + length
  }

  lemma Turn(text: string, st: ParseState, r: ParseState)
    requires Ready(text, st) && ParseStep(text, st) == Some(r)
    ensures Reaches(text, st, r)
  {
    hide Inv; hide Bounded; hide ParseStep;
    StepKeeps(text, st);
  }

  lemma ReachesOn(text: string, a: ParseState, b: ParseState, c: ParseState)
    requires Reaches(text, a, b) && Reaches(text, b, c)
    ensures Reaches(text, a, c)
  {
  }

  lemma LinkPlus(elements: seq<Element>, rows: seq<Element>, i: nat, next: nat)
    requires |elements| == i && |rows| > 0 && next == i + |rows| < NO_INDEX
    ensures Link(elements + rows, next, i) == elements + rows[0 := rows[0].(nextSibling := next)]
    ensures forall p :: Link(elements + rows, p, i) == elements + rows[0 := rows[0].(nextSibling := next)]
  {
  }

  /** What appending one banded row does to a state. */
  lemma AddBandedGrows(st: ParseState, position: nat, e: Element, coding: CodingKind)
    requires st.frames != []
    ensures var r := AddBanded(st.(position := position), e, coding);
      && SameStack(st, r) && Top(r).lastChild == |st.elements|
      && r.elements == Link(st.elements, Top(st).parent, Top(st).lastChild) + [e.(bandIndex := |st.bands|)]
      && r.bands == st.bands + [Band(coding, e.reference, e.outputSize, e.nullable)]
      && r.selectors == st.selectors && r.callables == st.callables && r.position == position
  {
    hide Link;
  }

  lemma Room(text: string, st: ParseState)
    requires Bounded(st) && st.position < |text|
    ensures HasRoom(text, st)
  {
  }

  //
  // Leaves
  //

  lemma IntegralStep(text: string, st: ParseState, n: Node)
    requires st.frames != [] && Bounded(st) && Top(st).kind == SequenceFrame && n.IntegralNode? && IsWidth(n.width)
    requires Has(text, st.position, PrintNode(n))
    ensures st.position < |text| && ParseStep(text, st) == ParseIntegral(text, st)
    ensures ParseStep(text, st) ==
              Some(AddBanded(st.(position := st.position + |PrintNode(n)|),
                             HeadRow(n, BaseOf(st), NO_INDEX).(bandIndex := NO_INDEX),
                             IntegralCoding(n.mark, n.width)))
  {
    hide AddBanded; hide HasRoom; hide Bounded; hide Has;
    var s := PrintNode(n);
    HasAt(text, st.position, s, 0);
    if |s| > 1 { HasAt(text, st.position, s, 1); }
    if |s| > 2 { HasAt(text, st.position, s, 2); }
    Room(text, st);
  }

  lemma SimIntegral(text: string, st: ParseState, n: Node) returns (r: ParseState)
    requires Ready(text, st) && Top(st).kind == SequenceFrame && n.IntegralNode? && ValidNode(n, false)
    requires Has(text, st.position, PrintNode(n))
    ensures Reaches(text, st, r) && SameStack(st, r) && Top(r).lastChild == |st.elements|
    ensures GrownBy(st, r, Link(st.elements, Top(st).parent, Top(st).lastChild) + RowsNode(n, BaseOf(st), NO_INDEX),
                    BandsNode(n), SelectorsNode(n), |PrintNode(n)|)
  {
    hide Inv; hide AddBanded; hide ParseStep; hide Link; hide Reaches; hide Has; hide Bounded;
    var q := st.position + |PrintNode(n)|;
    var e := HeadRow(n, BaseOf(st), NO_INDEX).(bandIndex := NO_INDEX);
    IntegralStep(text, st, n);
    r := AddBanded(st.(position := q), e, IntegralCoding(n.mark, n.width));
    Turn(text, st, r);
    AddBandedGrows(st, q, e, IntegralCoding(n.mark, n.width));
    assert e.(bandIndex := |st.bands|) == HeadRow(n, BaseOf(st), NO_INDEX);
    assert st.selectors + [] == st.selectors;
  }

  lemma ReferenceStep(text: string, st: ParseState, n: Node)
    requires st.frames != [] && Bounded(st) && Top(st).kind == SequenceFrame && n.ReferenceNode? && ValidNode(n, false)
    requires Has(text, st.position, PrintNode(n))
    ensures ParseStep(text, st) ==
              Some(AddBanded(st.(position := st.position + |PrintNode(n)|),
                             HeadRow(n, BaseOf(st), NO_INDEX).(bandIndex := NO_INDEX), Unsigned5))
  {
    hide AddBanded; hide HasRoom; hide Bounded; hide Has; hide ReferenceOf;
    var s := PrintNode(n);
    HasAt(text, st.position, s, 0);
    HasAt(text, st.position, s, 1);
    HasAt(text, st.position, s, 2);
    if |s| > 3 { HasAt(text, st.position, s, 3); }
    Room(text, st);
  }

  lemma SimReference(text: string, st: ParseState, n: Node) returns (r: ParseState)
    requires Ready(text, st) && Top(st).kind == SequenceFrame && n.ReferenceNode? && ValidNode(n, false)
    requires Has(text, st.position, PrintNode(n))
    ensures Reaches(text, st, r) && SameStack(st, r) && Top(r).lastChild == |st.elements|
    ensures GrownBy(st, r, Link(st.elements, Top(st).parent, Top(st).lastChild) + RowsNode(n, BaseOf(st), NO_INDEX),
                    BandsNode(n), SelectorsNode(n), |PrintNode(n)|)
  {
    hide Inv; hide AddBanded; hide ParseStep; hide Link; hide Reaches; hide Has; hide Bounded; hide ReferenceOf;
    var q := st.position + |PrintNode(n)|;
    var e := HeadRow(n, BaseOf(st), NO_INDEX).(bandIndex := NO_INDEX);
    ReferenceStep(text, st, n);
    r := AddBanded(st.(position := q), e, Unsigned5);
    Turn(text, st, r);
    AddBandedGrows(st, q, e, Unsigned5);
    assert e.(bandIndex := |st.bands|) == HeadRow(n, BaseOf(st), NO_INDEX);
    assert st.selectors + [] == st.selectors;
  }

  lemma SimCall(text: string, st: ParseState, n: Node) returns (r: ParseState)
    requires Ready(text, st) && Top(st).kind == SequenceFrame && n.CallNode?
    requires ValidNode(n, Top(st).callableIndex != NO_INDEX)
    requires Has(text, st.position, PrintNode(n))
    ensures Reaches(text, st, r) && SameStack(st, r) && Top(r).lastChild == |st.elements|
    ensures GrownBy(st, r, Link(st.elements, Top(st).parent, Top(st).lastChild) + RowsNode(n, BaseOf(st), NO_INDEX),
                    BandsNode(n), SelectorsNode(n), |PrintNode(n)|)
  {
    hide Inv; hide Number; hide PrintInt; hide Link; hide Has; hide Reaches;
    var p := st.position;
    var digits := PrintInt(n.offset);
    HasSplit(text, p, "(", digits + ")");
    HasSplit(text, p + 1, digits, ")");
    HasAt(text, p, "(", 0);
    HasAt(text, p + 1 + |digits|, ")", 0);
    NumberRead(text, p + 1, n.offset);
    Room(text, st);
    r := AddElement(st.(position := p + |PrintNode(n)|), HeadRow(n, BaseOf(st), NO_INDEX));
    assert ParseCall(text, st) == Some(r);
    Turn(text, st, r);
    assert st.bands + [] == st.bands && st.selectors + [] == st.selectors;
  }

  /** Close the body of the top frame at its bracket. */
  lemma SimClose(text: string, st: ParseState) returns (r: ParseState)
    requires Ready(text, st) && Top(st).kind == SequenceFrame && Top(st).hasClosingBracket
    requires Has(text, st.position, "]")
    ensures Reaches(text, st, r) && r == PopFrame(st).(position := st.position + 1)
  {
    HasAt(text, st.position, "]", 0);
    r := PopFrame(st).(position := st.position + 1);
    Turn(text, st, r);
  }

  /** A sound state with work left is ready for more. */
  lemma ReadyOn(text: string, st: ParseState, r: ParseState)
    requires Ready(text, st) && Reaches(text, st, r) && r.frames != []
    ensures Ready(text, r)
  {
    hide Inv; hide Bounded; hide ParseAll;
  }

  //
  // Siblings
  //

  /** The rows of some children placed below the top frame's parent. */
  function Under(st: ParseState, rows: seq<Element>): seq<Element>
    requires st.frames != []
  {
    if rows == [] then st.elements else Link(st.elements, Top(st).parent, Top(st).lastChild) + rows
  }

  /** r is what parsing the given rows, bands and selectors from st comes to. */
  ghost predicate Built(text: string, st: ParseState, r: ParseState, rows: seq<Element>, bands: seq<Band>,
                        selectors: seq<SelectorRange>, length: nat)
    requires st.frames != []
  {
    Reaches(text, st, r) && SameStack(st, r) && GrownBy(st, r, Under(st, rows), bands, selectors, length)
  }

  /** Only the head row of a subtree knows the next sibling. */
  lemma RowsNext(n: Node, at: Base, next: nat)
    ensures RowsNode(n, at, next) == RowsNode(n, at, NO_INDEX)[0 := RowsNode(n, at, NO_INDEX)[0].(nextSibling := next)]
  {
    hide RowsSeq; hide RowsCases;
  }

  /** Rows of one subtree followed by rows of its younger siblings are the rows of all of them. */
  lemma SiblingsJoin(st: ParseState, mid: ParseState, nodes: seq<Node>)
    requires st.frames != [] && mid.frames != [] && |nodes| > 0 && |mid.elements| < NO_INDEX
    requires SameStack(st, mid) && Top(mid).lastChild == |st.elements|
    requires GrownBy(st, mid, Under(st, RowsNode(nodes[0], BaseOf(st), NO_INDEX)),
                     BandsNode(nodes[0]), SelectorsNode(nodes[0]), |PrintNode(nodes[0])|)
    ensures Under(mid, RowsSeq(nodes[1..], BaseOf(mid))) == Under(st, RowsSeq(nodes, BaseOf(st)))
  {
    hide RowsNode; hide Link; hide BandsNode; hide SelectorsNode; hide PrintNode; hide HeadRow; hide Size; hide SizeSeq;
    hide BandsSeq; hide SelectorsSeq; hide PrintSeq;
    var at := BaseOf(st);
    var L0 := Link(st.elements, Top(st).parent, Top(st).lastChild);
    var first := RowsNode(nodes[0], at, NO_INDEX);
    assert BaseOf(mid) == After(at, nodes[0]);
    if |nodes| > 1 {
      RowsNext(nodes[0], at, |mid.elements|);
      LinkPlus(L0, first, at.row, |mid.elements|);
      RowsSome(nodes[1..], BaseOf(mid));
      Regroup(L0, RowsNode(nodes[0], at, |mid.elements|), RowsSeq(nodes[1..], BaseOf(mid)));
    } else {
      assert RowsSeq(nodes, at) == first + RowsSeq(nodes[1..], BaseOf(mid)) == first;
    }
  }

  lemma RowsSome(nodes: seq<Node>, at: Base)
    requires |nodes| > 0
    ensures RowsSeq(nodes, at) != []
  {
  }

  lemma Regroup<T>(a: seq<T>, b: seq<T>, c: seq<T>)
    ensures (a + b) + c == a + (b + c)
  {
  }

  lemma GrowthJoins(st: ParseState, mid: ParseState, r: ParseState, nodes: seq<Node>)
    requires |nodes| > 0
    requires mid.bands == st.bands + BandsNode(nodes[0]) && mid.selectors == st.selectors + SelectorsNode(nodes[0])
    requires r.bands == mid.bands + BandsSeq(nodes[1..]) && r.selectors == mid.selectors + SelectorsSeq(nodes[1..])
    ensures r.bands == st.bands + BandsSeq(nodes) && r.selectors == st.selectors + SelectorsSeq(nodes)
  {
    hide *;
    Regroup(st.bands, BandsNode(nodes[0]), BandsSeq(nodes[1..]));
    Regroup(st.selectors, SelectorsNode(nodes[0]), SelectorsSeq(nodes[1..]));
    SplitNodes(nodes);
  }

  lemma SplitNodes(nodes: seq<Node>)
    requires |nodes| > 0
    ensures BandsSeq(nodes) == BandsNode(nodes[0]) + BandsSeq(nodes[1..])
    ensures SelectorsSeq(nodes) == SelectorsNode(nodes[0]) + SelectorsSeq(nodes[1..])
  {
    hide BandsNode; hide SelectorsNode;
  }

  lemma {:induction false} SimSeq(text: string, st: ParseState, nodes: seq<Node>) returns (r: ParseState)
    requires Ready(text, st) && Top(st).kind == SequenceFrame
    requires ValidSeq(nodes, Top(st).callableIndex != NO_INDEX)
    requires Has(text, st.position, PrintSeq(nodes))
    ensures Built(text, st, r, RowsSeq(nodes, BaseOf(st)), BandsSeq(nodes), SelectorsSeq(nodes), |PrintSeq(nodes)|)
    decreases nodes, 1
  {
    hide Inv; hide Bounded; hide Reaches; hide Has; hide RowsNode; hide Link; hide BandsNode; hide SelectorsNode;
    hide PrintNode; hide ValidNode;
    if |nodes| == 0 {
      r := st;
      assert st.bands + [] == st.bands && st.selectors + [] == st.selectors;
      ReachesSelf(text, st);
    } else {
      HasSplit(text, st.position, PrintNode(nodes[0]), PrintSeq(nodes[1..]));
      var mid := SimNode(text, st, nodes[0]);
      ReadyOn(text, st, mid);
      r := SimSeq(text, mid, nodes[1..]);
      ReachesOn(text, st, mid, r);
      ReadySmall(text, mid);
      SiblingsJoin(st, mid, nodes);
      GrowthJoins(st, mid, r, nodes);
    }
  }

  lemma ReachesSelf(text: string, st: ParseState)
    requires Ready(text, st)
    ensures Reaches(text, st, st) && Top(st) == Top(st).(lastChild := Top(st).lastChild)
  {
  }

  lemma ReadySmall(text: string, st: ParseState)
    requires Ready(text, st)
    ensures |st.elements| + 1 < NO_INDEX
  {
    hide Inv;
  }

  lemma {:induction false} SimNode(text: string, st: ParseState, n: Node) returns (r: ParseState)
    requires Ready(text, st) && Top(st).kind == SequenceFrame
    requires ValidNode(n, Top(st).callableIndex != NO_INDEX)
    requires Has(text, st.position, PrintNode(n))
    ensures Built(text, st, r, RowsNode(n, BaseOf(st), NO_INDEX), BandsNode(n), SelectorsNode(n), |PrintNode(n)|)
    ensures Top(r).lastChild == |st.elements|
    decreases n, 2
  {
    hide Ready; hide Reaches; hide Has; hide RowsNode; hide Link; hide BandsNode; hide SelectorsNode; hide PrintNode;
    match n
    case IntegralNode(_, _) => r := SimIntegral(text, st, n);
    case ReferenceNode(_, _, _, _) => r := SimReference(text, st, n);
    case CallNode(_) => r := SimCall(text, st, n);
    case ReplicationNode(_, _) => r := SimReplication(text, st, n);
    case UnionNode(_, _, _) => r := SimUnion(text, st, n);
  }

  //
  // Replications
  //

  /** The state inside the brackets of a replication or behind the width of a union. */
  function Opened(st: ParseState, n: Node, length: nat): ParseState
    requires st.frames != [] && (n.ReplicationNode? || n.UnionNode?)
  {
    var e := HeadRow(n, BaseOf(st), NO_INDEX).(bandIndex := NO_INDEX, firstChild := NO_INDEX);
    var coding := ValueCoding(n.UnionNode? && n.signed, n.width);
    var f := if n.UnionNode? then ParseFrame(UnionFrame, |st.elements|, callableIndex := Top(st).callableIndex)
             else ParseFrame(SequenceFrame, |st.elements|, callableIndex := Top(st).callableIndex, hasClosingBracket := true);
    PushFrame(AddBanded(st.(position := st.position + length), e, coding), f)
  }

  lemma ReplicationStep(text: string, st: ParseState, n: Node)
    requires st.frames != [] && Bounded(st) && Top(st).kind == SequenceFrame && n.ReplicationNode? && IsWidth(n.width)
    requires Has(text, st.position, ['N', n.width, '['])
    ensures ParseStep(text, st) == Some(Opened(st, n, 3))
  {
    hide AddBanded; hide HasRoom; hide Bounded; hide Has;
    var s := ['N', n.width, '['];
    HasAt(text, st.position, s, 0);
    HasAt(text, st.position, s, 1);
    HasAt(text, st.position, s, 2);
    Room(text, st);
  }

  /** What opening a replication or union does to a state. */
  lemma OpenedGrows(st: ParseState, n: Node, length: nat)
    requires st.frames != [] && (n.ReplicationNode? || n.UnionNode?) && |st.elements| + 1 < NO_INDEX
    ensures var r := Opened(st, n, length);
      && |r.frames| == |st.frames| + 1
      && r.frames[..|st.frames|] == st.frames[..|st.frames| - 1] + [Top(st).(lastChild := |st.elements|)]
      && Top(r) == (if n.UnionNode? then ParseFrame(UnionFrame, |st.elements|, callableIndex := Top(st).callableIndex)
                    else ParseFrame(SequenceFrame, |st.elements|, callableIndex := Top(st).callableIndex, hasClosingBracket := true))
      && r.elements == Link(st.elements, Top(st).parent, Top(st).lastChild)
                       + [HeadRow(n, BaseOf(st), NO_INDEX).(firstChild := NO_INDEX)]
      && r.bands == st.bands + [Band(ValueCoding(n.UnionNode? && n.signed, n.width), NoReference, WidthBytes(n.width), false)]
      && r.selectors == st.selectors && r.callables == st.callables && r.position == st.position + length
      && BaseOf(r) == BaseOf(st).(row := |st.elements| + 1, band := |st.bands| + 1)
  {
    hide Link;
  }

  /** Children placed below the row of a replication or union that was appended last. */
  lemma FirstBelow(L0: seq<Element>, head: Element, rows: seq<Element>, st: ParseState)
    requires st.frames != [] && st.elements == L0 + [head] && Top(st).parent == |L0| && Top(st).lastChild == NO_INDEX
    requires head.firstChild == NO_INDEX
    ensures Under(st, rows) == L0 + ([head.(firstChild := Below(|L0|, rows != []))] + rows)
  {
    if rows == [] {
      assert head == head.(firstChild := NO_INDEX);
    }
  }

  lemma {:induction false} SimReplication(text: string, st: ParseState, n: Node) returns (r: ParseState)
    requires Ready(text, st) && Top(st).kind == SequenceFrame && n.ReplicationNode?
    requires ValidNode(n, Top(st).callableIndex != NO_INDEX)
    requires Has(text, st.position, PrintNode(n))
    ensures Built(text, st, r, RowsNode(n, BaseOf(st), NO_INDEX), BandsNode(n), SelectorsNode(n), |PrintNode(n)|)
    ensures Top(r).lastChild == |st.elements|
    decreases n, 1
  {
    hide Inv; hide Bounded; hide Reaches; hide Has; hide Link; hide ParseStep; hide Opened; hide Under; hide ParseAll;
    HasSplit(text, st.position, ['N', n.width, '['], PrintSeq(n.body) + "]");
    HasSplit(text, st.position + 3, PrintSeq(n.body), "]");
    ReplicationStep(text, st, n);
    var st1 := Opened(st, n, 3);
    Turn(text, st, st1);
    ReadySmall(text, st);
    OpenedGrows(st, n, 3);
    ReadyOn(text, st, st1);
    var r2 := SimSeq(text, st1, n.body);
    ReadyOn(text, st1, r2);
    r := SimClose(text, r2);
    ReachesOn(text, st, st1, r2);
    ReachesOn(text, st, r2, r);
    ReplicationCloses(st, n, r2, r);
  }

  /** Closing the brackets of a replication leaves its rows behind. */
  lemma ReplicationCloses(st: ParseState, n: Node, r2: ParseState, r: ParseState)
    requires st.frames != [] && n.ReplicationNode? && |st.elements| + 1 < NO_INDEX
    requires var st1 := Opened(st, n, 3);
             && SameStack(st1, r2)
             && GrownBy(st1, r2, Under(st1, RowsSeq(n.body, BaseOf(st1))), BandsSeq(n.body), SelectorsSeq(n.body), |PrintSeq(n.body)|)
    requires r2.frames != [] && r == PopFrame(r2).(position := r2.position + 1)
    ensures SameStack(st, r) && Top(r).lastChild == |st.elements|
    ensures GrownBy(st, r, Under(st, RowsNode(n, BaseOf(st), NO_INDEX)), BandsNode(n), SelectorsNode(n), |PrintNode(n)|)
  {
    hide Link; hide Opened; hide Under; hide BandsSeq; hide SelectorsSeq; hide PrintSeq; hide RowsSeq;
    var st1 := Opened(st, n, 3);
    OpenedGrows(st, n, 3);
    var head := HeadRow(n, BaseOf(st), NO_INDEX).(firstChild := NO_INDEX);
    var rows := RowsSeq(n.body, BaseOf(st1));
    var L0 := Link(st.elements, Top(st).parent, Top(st).lastChild);
    FirstBelow(L0, head, rows, st1);
    RowsAny(n.body, BaseOf(st1));
    assert Under(st1, rows) == L0 + RowsNode(n, BaseOf(st), NO_INDEX);
    UnderSome(st, RowsNode(n, BaseOf(st), NO_INDEX));
    assert r.frames == st1.frames[..|st.frames|];
    Regroup(st.bands, [Band(ValueCoding(false, n.width), NoReference, WidthBytes(n.width), false)], BandsSeq(n.body));
  }

  lemma RowsAny(nodes: seq<Node>, at: Base)
    ensures RowsSeq(nodes, at) != [] <==> |nodes| > 0
  {
    if |nodes| > 0 { RowsSome(nodes, at); }
  }

  lemma UnderSome(st: ParseState, rows: seq<Element>)
    requires st.frames != [] && rows != []
    ensures Under(st, rows) == Link(st.elements, Top(st).parent, Top(st).lastChild) + rows
  {
  }

  lemma {:induction false} SimUnion(text: string, st: ParseState, n: Node) returns (r: ParseState)
    requires Ready(text, st) && Top(st).kind == SequenceFrame && n.UnionNode?
    requires ValidNode(n, Top(st).callableIndex != NO_INDEX)
    requires Has(text, st.position, PrintNode(n))
    ensures Built(text, st, r, RowsNode(n, BaseOf(st), NO_INDEX), BandsNode(n), SelectorsNode(n), |PrintNode(n)|)
    ensures Top(r).lastChild == |st.elements|
    decreases n, 1
  {
    hide Inv; hide Bounded; hide Reaches; hide Has; hide Link; hide ParseStep; hide Opened; hide Under; hide ParseAll;
    hide DisjointCases; hide RowsNode; hide BandsNode; hide SelectorsNode; hide PrintCases;
    var tag := (if n.signed then "TS" else "T") + [n.width];
    HasSplit(text, st.position, tag, PrintCases(n.cases));
    UnionStep(text, st, n, tag);
    var st1 := Opened(st, n, |tag|);
    Turn(text, st, st1);
    ReadySmall(text, st);
    OpenedGrows(st, n, |tag|);
    ReadyOn(text, st, st1);
    OpenedUnion(st, n, |tag|);
    assert [] + n.cases == n.cases;
    r := SimCases(text, st1, [], n.cases);
    ReachesOn(text, st, st1, r);
    UnionCloses(st, n, tag, r);
  }

  /** Popping the frame of a union leaves its rows behind. */
  lemma UnionCloses(st: ParseState, n: Node, tag: string, r: ParseState)
    requires st.frames != [] && n.UnionNode? && |st.elements| + 1 < NO_INDEX && |n.cases| > 0
    requires tag == (if n.signed then "TS" else "T") + [n.width]
    requires var st1 := Opened(st, n, |tag|);
             && r.frames == st1.frames[..|st1.frames| - 1]
             && GrownBy(st1, r, Under(st1, RowsCases(n.cases, BaseOf(st1))), BandsCases(n.cases), SelectorsCases(n.cases),
                        |PrintCases(n.cases)|)
    ensures SameStack(st, r) && Top(r).lastChild == |st.elements|
    ensures GrownBy(st, r, Under(st, RowsNode(n, BaseOf(st), NO_INDEX)), BandsNode(n), SelectorsNode(n), |PrintNode(n)|)
  {
    hide Link; hide Opened; hide Under; hide BandsCases; hide SelectorsCases; hide PrintCases; hide RowsCases;
    var st1 := Opened(st, n, |tag|);
    OpenedGrows(st, n, |tag|);
    var head := HeadRow(n, BaseOf(st), NO_INDEX).(firstChild := NO_INDEX);
    var rows := RowsCases(n.cases, BaseOf(st1));
    var L0 := Link(st.elements, Top(st).parent, Top(st).lastChild);
    FirstBelow(L0, head, rows, st1);
    CaseRowsSome(n.cases, BaseOf(st1));
    assert Under(st1, rows) == L0 + RowsNode(n, BaseOf(st), NO_INDEX);
    UnderSome(st, RowsNode(n, BaseOf(st), NO_INDEX));
    assert r.frames == st1.frames[..|st.frames|];
    Regroup(st.bands, [Band(ValueCoding(n.signed, n.width), NoReference, WidthBytes(n.width), false)], BandsCases(n.cases));
  }

  lemma CaseRowsSome(cases: seq<Case>, at: Base)
    requires |cases| > 0
    ensures RowsCases(cases, at) != []
  {
  }

  lemma UnionStep(text: string, st: ParseState, n: Node, tag: string)
    requires st.frames != [] && Bounded(st) && Top(st).kind == SequenceFrame && n.UnionNode? && IsWidth(n.width)
    requires tag == (if n.signed then "TS" else "T") + [n.width] && Has(text, st.position, tag)
    ensures ParseStep(text, st) == Some(Opened(st, n, |tag|))
  {
    hide AddBanded; hide HasRoom; hide Bounded; hide Has;
    HasAt(text, st.position, tag, 0);
    HasAt(text, st.position, tag, 1);
    if n.signed { HasAt(text, st.position, tag, 2); }
    Room(text, st);
  }

  /** The open union has no case yet. */
  lemma OpenedUnion(st: ParseState, n: Node, length: nat)
    requires st.frames != [] && n.UnionNode? && |st.elements| + 1 < NO_INDEX
    ensures var r := Opened(st, n, length); CasesDone(r, [])
  {
    hide Link;
    OpenedGrows(st, n, length);
  }

  //
  // Union cases
  //

  /** The top frame is a union whose cases so far are `done`, none of them the default. */
  predicate CasesDone(st: ParseState, done: seq<Case>) {
    && st.frames != [] && Top(st).kind == UnionFrame && !Top(st).sawDefault && Top(st).parent < |st.elements|
    && ChainHas(st.elements, st.selectors, st.elements[Top(st).parent].firstChild, Top(st).lastChild, done)
  }

  function CaseText(c: Case): string {
    "(" + PrintRanges(c.ranges) + ")["
  }

  /** The state inside the brackets of a case. */
  function CaseOpened(st: ParseState, c: Case): ParseState
    requires st.frames != []
  {
    var row := Element(UnionCase, selectorOffset := |st.selectors|, selectorCount := |c.ranges|);
    var st1 := AddElement(st.(selectors := st.selectors + c.ranges, position := st.position + |CaseText(c)|), row);
    var marked := st1.(frames := st1.frames[..|st1.frames| - 1] + [Top(st1).(sawDefault := c.ranges == [])]);
    PushFrame(marked, ParseFrame(SequenceFrame, |st.elements|, callableIndex := Top(st).callableIndex,
                                 hasClosingBracket := true))
  }

  lemma NoNumber(text: string, p: nat, elements: seq<Element>, selectors: seq<SelectorRange>, prior: nat)
    requires Selectors(text, p, elements, selectors, prior).Some?
    ensures At(text, p) != ')'
  {
    hide AnyOverlap;
  }

  lemma CaseStep(text: string, st: ParseState, done: seq<Case>, c: Case)
    requires Ready(text, st) && CasesDone(st, done) && Has(text, st.position, CaseText(c))
    requires forall k :: 0 <= k < |c.ranges| ==> ValidRange(c.ranges[k]) && ApartFrom(done, c.ranges[k])
    ensures ParseStep(text, st) == Some(CaseOpened(st, c))
  {
    hide Inv; hide ChainHas; hide ApartFrom; hide ValidRange; hide AddElement; hide Selectors; hide HasRoom; hide Has; hide PrintRanges;
    var p := st.position;
    var s := PrintRanges(c.ranges);
    HasSplit(text, p, "(" + s, ")[");
    HasSplit(text, p, "(", s);
    HasAt(text, p, "(", 0);
    HasAt(text, p + 1 + |s|, ")[", 0);
    HasAt(text, p + 1 + |s|, ")[", 1);
    Room(text, st);
    ReadySmall(text, st);
    if |c.ranges| == 0 {
      NoRanges(c.ranges);
      assert st.selectors + [] == st.selectors;
    } else {
      var first := st.elements[Top(st).parent].firstChild;
      RangesRead(text, p + 1, st.elements, st.selectors, st.selectors, first, Top(st).lastChild, done, c.ranges);
      NoNumber(text, p + 1, st.elements, st.selectors, first);
    }
  }

  lemma NoRanges(ranges: seq<SelectorRange>)
    requires |ranges| == 0
    ensures PrintRanges(ranges) == ""
  {
  }

  lemma CaseOpenedGrows(st: ParseState, c: Case)
    requires st.frames != []
    ensures var r := CaseOpened(st, c);
      && |r.frames| == |st.frames| + 1
      && r.frames[..|st.frames|] == st.frames[..|st.frames| - 1]
                                    + [Top(st).(lastChild := |st.elements|, sawDefault := c.ranges == [])]
      && Top(r) == ParseFrame(SequenceFrame, |st.elements|, callableIndex := Top(st).callableIndex, hasClosingBracket := true)
      && r.elements == Link(st.elements, Top(st).parent, Top(st).lastChild)
                       + [CaseHead(c, BaseOf(st), NO_INDEX).(firstChild := NO_INDEX)]
      && r.bands == st.bands && r.selectors == st.selectors + c.ranges && r.callables == st.callables
      && r.position == st.position + |CaseText(c)|
      && BaseOf(r) == BaseOf(st).(row := |st.elements| + 1, selector := |st.selectors| + |c.ranges|)
  {
    hide Link; hide CaseText;
  }

  /** Everything one case does, up to its closing bracket. */
  ghost predicate CaseBuilt(text: string, st: ParseState, r: ParseState, c: Case)
    requires st.frames != []
  {
    && Reaches(text, st, r)
    && r.frames == st.frames[..|st.frames| - 1] + [Top(st).(lastChild := |st.elements|, sawDefault := c.ranges == [])]
    && GrownBy(st, r, Under(st, RowsCase(c, BaseOf(st), NO_INDEX)), BandsSeq(c.body), c.ranges + SelectorsSeq(c.body), |PrintCase(c)|)
  }

  lemma {:induction false} SimCase(text: string, st: ParseState, done: seq<Case>, c: Case) returns (r: ParseState)
    requires Ready(text, st) && CasesDone(st, done) && Has(text, st.position, PrintCase(c))
    requires forall k :: 0 <= k < |c.ranges| ==> ValidRange(c.ranges[k]) && ApartFrom(done, c.ranges[k])
    requires ValidSeq(c.body, Top(st).callableIndex != NO_INDEX)
    ensures CaseBuilt(text, st, r, c)
    decreases c, 2
  {
    hide Inv; hide Bounded; hide Reaches; hide Has; hide Link; hide ParseStep; hide CaseOpened; hide Under; hide ParseAll;
    hide ChainHas; hide ApartFrom; hide ValidRange; hide RowsSeq; hide BandsSeq; hide SelectorsSeq; hide PrintRanges;
    hide RowsCase; hide PrintSeq;
    HasSplit(text, st.position, CaseText(c), PrintSeq(c.body) + "]");
    HasSplit(text, st.position + |CaseText(c)|, PrintSeq(c.body), "]");
    CaseStep(text, st, done, c);
    var st1 := CaseOpened(st, c);
    Turn(text, st, st1);
    CaseOpenedGrows(st, c);
    ReadyOn(text, st, st1);
    var r2 := SimSeq(text, st1, c.body);
    ReadyOn(text, st1, r2);
    r := SimClose(text, r2);
    ReachesOn(text, st, st1, r2);
    ReachesOn(text, st, r2, r);
    CaseCloses(st, c, r2, r);
  }

  /** Closing the brackets of a case leaves its rows behind. */
  lemma CaseCloses(st: ParseState, c: Case, r2: ParseState, r: ParseState)
    requires st.frames != []
    requires var st1 := CaseOpened(st, c);
             && SameStack(st1, r2)
             && GrownBy(st1, r2, Under(st1, RowsSeq(c.body, BaseOf(st1))), BandsSeq(c.body), SelectorsSeq(c.body), |PrintSeq(c.body)|)
    requires r2.frames != [] && r == PopFrame(r2).(position := r2.position + 1)
    ensures r.frames == st.frames[..|st.frames| - 1] + [Top(st).(lastChild := |st.elements|, sawDefault := c.ranges == [])]
    ensures GrownBy(st, r, Under(st, RowsCase(c, BaseOf(st), NO_INDEX)), BandsSeq(c.body),
              c.ranges + SelectorsSeq(c.body), |PrintCase(c)|)
  {
    hide Link; hide CaseOpened; hide Under; hide BandsSeq; hide SelectorsSeq; hide PrintSeq; hide RowsSeq; hide PrintRanges;
    var st1 := CaseOpened(st, c);
    CaseOpenedGrows(st, c);
    var head := CaseHead(c, BaseOf(st), NO_INDEX).(firstChild := NO_INDEX);
    var rows := RowsSeq(c.body, BaseOf(st1));
    var L0 := Link(st.elements, Top(st).parent, Top(st).lastChild);
    FirstBelow(L0, head, rows, st1);
    RowsAny(c.body, BaseOf(st1));
    assert Under(st1, rows) == L0 + RowsCase(c, BaseOf(st), NO_INDEX);
    UnderSome(st, RowsCase(c, BaseOf(st), NO_INDEX));
    assert r.frames == st1.frames[..|st.frames|];
    Regroup(st.selectors, c.ranges, SelectorsSeq(c.body));
  }

  /** The finished case joins the chain. */
  lemma CaseJoins(text: string, st: ParseState, r: ParseState, done: seq<Case>, c: Case)
    requires Ready(text, st) && CasesDone(st, done) && CaseBuilt(text, st, r, c) && c.ranges != []
    ensures CasesDone(r, done + [c])
  {
    hide Inv; hide Reaches; hide Has; hide RowsSeq; hide BandsSeq; hide SelectorsSeq; hide PrintCase; hide ChainHas;
    ReadySmall(text, st);
    var u, n := Top(st).parent, |st.elements|;
    var first := st.elements[u].firstChild;
    var rows := RowsCase(c, BaseOf(st), NO_INDEX);
    assert r.elements == Link(st.elements, u, Top(st).lastChild) + rows;
    assert r.elements[n] == rows[0] == CaseHead(c, BaseOf(st), NO_INDEX);
    assert r.selectors[|st.selectors|..|st.selectors| + |c.ranges|] == c.ranges;
    NewChain(r.elements, r.selectors, n, c);
    if |done| == 0 {
      NoChain(st.elements, st.selectors, first, Top(st).lastChild);
      assert done + [c] == [c];
    } else {
      SomeChain(st.elements, st.selectors, first, Top(st).lastChild, done);
      ChainExtends(st.elements, st.selectors, r.elements, r.selectors, first, Top(st).lastChild, n, done, c);
    }
  }

  lemma NewChain(elements: seq<Element>, selectors: seq<SelectorRange>, n: nat, c: Case)
    requires n < |elements| && elements[n].nextSibling == NO_INDEX
    requires elements[n].selectorOffset + elements[n].selectorCount <= |selectors|
    requires selectors[elements[n].selectorOffset..elements[n].selectorOffset + elements[n].selectorCount] == c.ranges
    ensures ChainHas(elements, selectors, n, n, [c])
  {
  }

  lemma NoChain(elements: seq<Element>, selectors: seq<SelectorRange>, c: nat, last: nat)
    requires ChainHas(elements, selectors, c, last, [])
    ensures c == NO_INDEX && last == NO_INDEX
  {
  }

  lemma SomeChain(elements: seq<Element>, selectors: seq<SelectorRange>, c: nat, last: nat, done: seq<Case>)
    requires |done| > 0 && ChainHas(elements, selectors, c, last, done)
    ensures c <= last < |elements|
  {
  }

  /** The rows of one case and of the later ones are the rows of all. */
  lemma CasesJoin(st: ParseState, mid: ParseState, cases: seq<Case>)
    requires st.frames != [] && mid.frames != [] && |cases| > 1 && |mid.elements| < NO_INDEX
    requires Top(mid).parent == Top(st).parent && Top(mid).lastChild == |st.elements|
    requires Top(mid).callableIndex == Top(st).callableIndex
    requires GrownBy(st, mid, Under(st, RowsCase(cases[0], BaseOf(st), NO_INDEX)), BandsSeq(cases[0].body),
                     cases[0].ranges + SelectorsSeq(cases[0].body), |PrintCase(cases[0])|)
    ensures Under(mid, RowsCases(cases[1..], BaseOf(mid))) == Under(st, RowsCases(cases, BaseOf(st)))
  {
    hide Link; hide RowsSeq; hide BandsSeq; hide SelectorsSeq; hide PrintCase; hide SizeSeq; hide RowsCase;
    var at := BaseOf(st);
    var L0 := Link(st.elements, Top(st).parent, Top(st).lastChild);
    var first := RowsCase(cases[0], at, NO_INDEX);
    assert |L0| == at.row;
    assert BaseOf(mid) == AfterCase(at, cases[0]);
    LinkPlus(L0, first, at.row, |mid.elements|);
    var linked := first[0 := first[0].(nextSibling := |mid.elements|)];
    var rest := RowsCases(cases[1..], BaseOf(mid));
    CaseNext(cases[0], at, |mid.elements|);
    CaseRowsSome(cases[1..], BaseOf(mid));
    Regroup(L0, linked, rest);
  }

  lemma CaseNext(c: Case, at: Base, next: nat)
    ensures RowsCase(c, at, next) == RowsCase(c, at, NO_INDEX)[0 := RowsCase(c, at, NO_INDEX)[0].(nextSibling := next)]
  {
    hide RowsSeq;
  }

  lemma CaseGrowthJoins(st: ParseState, mid: ParseState, r: ParseState, cases: seq<Case>)
    requires |cases| > 0
    requires mid.bands == st.bands + BandsSeq(cases[0].body)
    requires mid.selectors == st.selectors + (cases[0].ranges + SelectorsSeq(cases[0].body))
    requires r.bands == mid.bands + BandsCases(cases[1..]) && r.selectors == mid.selectors + SelectorsCases(cases[1..])
    ensures r.bands == st.bands + BandsCases(cases) && r.selectors == st.selectors + SelectorsCases(cases)
  {
    hide *;
    SplitCases(cases);
    Regroup(st.bands, BandsSeq(cases[0].body), BandsCases(cases[1..]));
    Regroup(st.selectors, cases[0].ranges + SelectorsSeq(cases[0].body), SelectorsCases(cases[1..]));
  }

  lemma SplitCases(cases: seq<Case>)
    requires |cases| > 0
    ensures BandsCases(cases) == BandsSeq(cases[0].body) + BandsCases(cases[1..])
    ensures SelectorsCases(cases) == (cases[0].ranges + SelectorsSeq(cases[0].body)) + SelectorsCases(cases[1..])
  {
    hide BandsSeq; hide SelectorsSeq;
  }

  /** The default case closes the union. */
  lemma SimPop(text: string, st: ParseState) returns (r: ParseState)
    requires Ready(text, st) && Top(st).kind == UnionFrame && Top(st).sawDefault
    ensures Reaches(text, st, r) && r == PopFrame(st)
  {
    hide Inv; hide Bounded; hide ParseAll;
    r := PopFrame(st);
    Turn(text, st, r);
  }

  lemma LastCase(cases: seq<Case>, at: Base)
    requires |cases| == 1
    ensures RowsCases(cases, at) == RowsCase(cases[0], at, NO_INDEX)
    ensures BandsCases(cases) == BandsSeq(cases[0].body)
    ensures SelectorsCases(cases) == cases[0].ranges + SelectorsSeq(cases[0].body)
    ensures PrintCases(cases) == PrintCase(cases[0])
  {
    hide RowsSeq; hide BandsSeq; hide SelectorsSeq; hide PrintCase;
  }

  /** The ranges of the next case overlap no finished one. */
  lemma NextApart(done: seq<Case>, cases: seq<Case>)
    requires |cases| > 0 && DisjointCases(done + cases)
    ensures forall k :: 0 <= k < |cases[0].ranges| ==> ApartFrom(done, cases[0].ranges[k])
    ensures (done + [cases[0]]) + cases[1..] == done + cases
  {
    var all := done + cases;
    assert all[|done|] == cases[0];
    forall k | 0 <= k < |cases[0].ranges|
      ensures ApartFrom(done, cases[0].ranges[k])
    {
      forall a, j | 0 <= a < |done| && 0 <= j < |done[a].ranges|
        ensures !Overlap(done[a].ranges[j], cases[0].ranges[k])
      {
        assert all[a] == done[a];
        assert !Overlap(all[a].ranges[j], all[|done|].ranges[k]);
      }
    }
  }

  lemma {:induction false} SimCases(text: string, st: ParseState, done: seq<Case>, cases: seq<Case>) returns (r: ParseState)
    requires Ready(text, st) && CasesDone(st, done) && Has(text, st.position, PrintCases(cases))
    requires |cases| > 0 && ValidCases(cases, Top(st).callableIndex != NO_INDEX) && DisjointCases(done + cases)
    requires forall k :: 0 <= k < |cases| ==> (cases[k].ranges == [] <==> k == |cases| - 1)
    ensures Reaches(text, st, r) && r.frames == st.frames[..|st.frames| - 1]
    ensures GrownBy(st, r, Under(st, RowsCases(cases, BaseOf(st))), BandsCases(cases), SelectorsCases(cases), |PrintCases(cases)|)
    decreases cases, 1
  {
    hide Ready; hide Reaches; hide Has; hide DisjointCases; hide RowsCase; hide Under; hide BandsSeq; hide SelectorsSeq;
    hide PrintCase; hide ValidSeq; hide ApartFrom; hide ValidRange; hide ChainHas;
    var c := cases[0];
    HasSplit(text, st.position, PrintCase(c), PrintCases(cases[1..]));
    NextApart(done, cases);
    var mid := SimCase(text, st, done, c);
    ReadyOn(text, st, mid);
    if |cases| == 1 {
      r := SimPop(text, mid);
      LastCase(cases, BaseOf(st));
      ReachesOn(text, st, mid, r);
    } else {
      assert cases[0].ranges != [];
      CaseJoins(text, st, mid, done, c);
      forall k | 0 <= k < |cases[1..]|
        ensures cases[1..][k].ranges == [] <==> k == |cases[1..]| - 1
      {
        assert cases[1..][k] == cases[k + 1];
      }
      r := SimCases(text, mid, done + [c], cases[1..]);
      ReachesOn(text, st, mid, r);
      ReadySmall(text, mid);
      CasesJoin(st, mid, cases);
      CaseGrowthJoins(st, mid, r, cases);
    }
  }
}
