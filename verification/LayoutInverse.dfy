// Compiling undoes printing: which printed trees the compiler accepts, and the tree read back from
// the links of the compiled table.
module LayoutInverse {
  import opened Common
  import opened LayoutModel
  import opened LayoutParser
  import opened LayoutParserSound
  import opened LayoutCompile
  import opened LayoutSyntax
  import opened LayoutRoundTrip

  //
  // Calls
  //

  /** A call row lands on one of the callables. */
  predicate RowLands(e: Element, total: nat) {
    e.kind == Call ==> 0 <= e.callableIndex + e.callOffset < total
  }

  predicate AllLand(rows: seq<Element>, total: nat) {
    forall i :: 0 <= i < |rows| ==> RowLands(rows[i], total)
  }

  lemma LandBoth(a: seq<Element>, b: seq<Element>, total: nat)
    ensures AllLand(a + b, total) <==> AllLand(a, total) && AllLand(b, total)
  {
    hide RowLands;
    if AllLand(a + b, total) {
      forall i | 0 <= i < |a| ensures RowLands(a[i], total) { assert (a + b)[i] == a[i]; }
      forall i | 0 <= i < |b| ensures RowLands(b[i], total) { assert (a + b)[|a| + i] == b[i]; }
    }
  }

  lemma {:induction false} NodeLands(n: Node, at: Base, next: nat, total: nat)
    ensures AllLand(RowsNode(n, at, next), total) <==> CallsNode(n, at.callable, total)
    decreases n, 0
  {
    hide AllLand; hide RowsSeq; hide RowsCases; hide CallsSeq; hide CallsCases;
    var head := [HeadRow(n, at, next)];
    assert AllLand(head, total) <==> (n.CallNode? ==> CallsNode(n, at.callable, total)) by {
      HeadLands(n, at, next, total);
    }
    match n
    case ReplicationNode(_, body) =>
      var below := at.(row := at.row + 1, band := at.band + 1);
      LandBoth(head, RowsSeq(body, below), total);
      SeqLands(body, below, total);
    case UnionNode(_, _, cases) =>
      var below := at.(row := at.row + 1, band := at.band + 1);
      LandBoth(head, RowsCases(cases, below), total);
      CasesLand(cases, below, total);
    case _ =>
      assert RowsNode(n, at, next) == head;
  }

  lemma HeadLands(n: Node, at: Base, next: nat, total: nat)
    ensures AllLand([HeadRow(n, at, next)], total) <==> (n.CallNode? ==> CallsNode(n, at.callable, total))
  {
    hide CallsSeq; hide CallsCases;
    assert AllLand([HeadRow(n, at, next)], total) <==> RowLands([HeadRow(n, at, next)][0], total);
  }

  lemma {:induction false} SeqLands(nodes: seq<Node>, at: Base, total: nat)
    ensures AllLand(RowsSeq(nodes, at), total) <==> CallsSeq(nodes, at.callable, total)
    decreases nodes, 1
  {
    hide AllLand; hide RowsNode; hide CallsNode;
    if |nodes| == 0 {
      assert AllLand([], total) by { NoneLands(total); }
    } else {
      var next := if |nodes| > 1 then at.row + Size(nodes[0]) else NO_INDEX;
      LandBoth(RowsNode(nodes[0], at, next), RowsSeq(nodes[1..], After(at, nodes[0])), total);
      NodeLands(nodes[0], at, next, total);
      SeqLands(nodes[1..], After(at, nodes[0]), total);
    }
  }

  lemma NoneLands(total: nat)
    ensures AllLand([], total)
  {
  }

  lemma {:induction false} CasesLand(cases: seq<Case>, at: Base, total: nat)
    ensures AllLand(RowsCases(cases, at), total) <==> CallsCases(cases, at.callable, total)
    decreases cases, 1
  {
    hide AllLand; hide RowsSeq; hide CallsSeq; hide RowsCase;
    if |cases| == 0 {
      NoneLands(total);
    } else {
      var c := cases[0];
      var next := if |cases| > 1 then at.row + 1 + SizeSeq(c.body) else NO_INDEX;
      LandBoth(RowsCase(c, at, next), RowsCases(cases[1..], AfterCase(at, c)), total);
      var below := at.(row := at.row + 1, selector := at.selector + |c.ranges|);
      CaseRowLands(c, at, next, total);
      SeqLands(c.body, below, total);
      CasesLand(cases[1..], AfterCase(at, c), total);
    }
  }

  lemma CaseRowLands(c: Case, at: Base, next: nat, total: nat)
    ensures AllLand(RowsCase(c, at, next), total)
       <==> AllLand(RowsSeq(c.body, at.(row := at.row + 1, selector := at.selector + |c.ranges|)), total)
  {
    hide RowsSeq;
    LandBoth([CaseHead(c, at, next)], RowsSeq(c.body, at.(row := at.row + 1, selector := at.selector + |c.ranges|)), total);
  }

  /** Outside callables there are no calls. */
  lemma {:induction false} NoCalls(n: Node, c: nat, total: nat)
    requires ValidNode(n, false)
    ensures CallsNode(n, c, total)
    decreases n, 0
  {
    hide DisjointCases;
    match n
    case ReplicationNode(_, body) => NoCallsSeq(body, c, total);
    case UnionNode(_, _, cases) => NoCallsCases(cases, c, total);
    case _ =>
  }

  lemma {:induction false} NoCallsSeq(nodes: seq<Node>, c: nat, total: nat)
    requires ValidSeq(nodes, false)
    ensures CallsSeq(nodes, c, total)
    decreases nodes, 1
  {
    if |nodes| > 0 {
      NoCalls(nodes[0], c, total);
      NoCallsSeq(nodes[1..], c, total);
    }
  }

  lemma {:induction false} NoCallsCases(cases: seq<Case>, c: nat, total: nat)
    requires ValidCases(cases, false)
    ensures CallsCases(cases, c, total)
    decreases cases, 1
  {
    if |cases| > 0 {
      NoCallsSeq(cases[0].body, c, total);
      NoCallsCases(cases[1..], c, total);
    }
  }

  lemma {:induction false} ItemsLand(items: seq<Item>, at: Base, k: nat, total: nat)
    requires ValidItems(items)
    ensures AllLand(RowsItems(items, at, k), total) <==> CallsLand(items, k, total)
    decreases |items|
  {
    hide AllLand; hide RowsItem; hide CallsSeq; hide AfterItem; hide SizeItem; hide ValidItem;
    if |items| == 0 {
      NoneLands(total);
    } else {
      var next := if |items| > 1 then at.row + SizeItem(items[0]) else NO_INDEX;
      var k' := k + if items[0].CallableItem? then 1 else 0;
      LandBoth(RowsItem(items[0], at, k, next), RowsItems(items[1..], AfterItem(at, items[0]), k'), total);
      assert ValidItem(items[0]);
      ItemLands(items[0], at, k, next, total);
      ItemsLand(items[1..], AfterItem(at, items[0]), k', total);
    }
  }

  lemma ItemLands(item: Item, at: Base, k: nat, next: nat, total: nat)
    requires ValidItem(item)
    ensures AllLand(RowsItem(item, at, k, next), total) <==> (item.CallableItem? ==> CallsSeq(item.body, k, total))
  {
    hide AllLand; hide RowsSeq; hide CallsSeq; hide RowsNode; hide CallsNode; hide ValidNode; hide ValidSeq;
    match item
    case NodeItem(node) =>
      NodeLands(node, at, next, total);
      NoCalls(node, at.callable, total);
    case CallableItem(body) =>
      var head := Element(Callable, firstChild := Below(at.row, |body| > 0), nextSibling := next, callableIndex := k);
      var below := at.(row := at.row + 1, callable := k);
      LandBoth([head], RowsSeq(body, below), total);
      SeqLands(body, below, total);
      OtherLands(head, total);
  }

  lemma OtherLands(e: Element, total: nat)
    requires e.kind != Call
    ensures AllLand([e], total)
  {
  }

  /** Resolution succeeds exactly when every call row lands. */
  lemma {:induction false} ResolvesWhenLanding(st: ParseState, n: nat)
    requires Inv(st) && n <= |st.elements|
    ensures ResolveCalls(TablesOf(st), n).Some? <==> AllLand(st.elements[..n], |st.callables|)
    decreases n
  {
    hide Inv; hide Resolved; hide ResolveRow; hide AllLand;
    if n == 0 {
      NoneLands(|st.callables|);
    } else {
      ResolvesWhenLanding(st, n - 1);
      assert st.elements[..n] == st.elements[..n - 1] + [st.elements[n - 1]];
      LandBoth(st.elements[..n - 1], [st.elements[n - 1]], |st.callables|);
      if ResolveCalls(TablesOf(st), n - 1).Some? {
        ResolveKeeps(st, n - 1);
        OneResolves(st, ResolveCalls(TablesOf(st), n - 1).value, n - 1);
      }
    }
  }

  lemma OneResolves(st: ParseState, L: Layout, i: nat)
    requires Resolved(st, L, i) && i < |L.elements|
    ensures ResolveRow(L, i).Some? <==> AllLand([st.elements[i]], |st.callables|)
  {
    hide FlagUpTo; hide CountFlags;
    assert RowResolved(st, L, i, i);
    assert [st.elements[i]][0] == st.elements[i];
  }

  lemma {:induction false} EntriesCount(items: seq<Item>, row: nat)
    ensures |EntriesItems(items, row)| == CountCallables(items)
    ensures forall c :: 0 <= c < CountCallables(items) ==> EntriesItems(items, row)[c].elementIndex >= row
    ensures CountCallables(items) > 0 && items[0].CallableItem? ==> EntriesItems(items, row)[0].elementIndex == row
    ensures CountCallables(items) > 0 && !items[0].CallableItem? ==> EntriesItems(items, row)[0].elementIndex > row
    decreases |items|
  {
    if |items| > 0 {
      EntriesCount(items[1..], row + SizeItem(items[0]));
    }
  }

  /** Row i of the compiled table: the row of the tree, its call resolved. */
  function Settled(e: Element): Element {
    if e.kind == Call && e.callableIndex + e.callOffset >= 0 then
      e.(targetCallable := e.callableIndex + e.callOffset, backwardCall := e.callOffset <= 0)
    else e
  }

  function SettledAll(rows: seq<Element>): (r: seq<Element>)
    ensures |r| == |rows| && forall i :: 0 <= i < |rows| ==> r[i] == Settled(rows[i])
  {
    seq(|rows|, i requires 0 <= i < |rows| => Settled(rows[i]))
  }

  /**
   * The printed text of a valid tree compiles exactly when every call lands on a callable and a layout
   * with callables starts with one; the tables are then those of the tree, the calls resolved.
   */
  lemma PrintedCompiles(items: seq<Item>)
    requires ValidItems(items) && |PrintItems(items)| <= MAX_LAYOUT_LENGTH
    ensures CompileText(PrintItems(items)).Some? <==> CallsLand(items, 0, CountCallables(items)) && CallableLeads(items)
    ensures CompileText(PrintItems(items)).Some? ==>
              var L := CompileText(PrintItems(items)).value;
              && L.elements == SettledAll(RowsLayout(items))
              && L.bands == BandsItems(items) && L.selectors == SelectorsItems(items)
              && |L.callables| == CountCallables(items) == |EntriesItems(items, 1)|
              && forall c :: 0 <= c < |L.callables| ==> L.callables[c].elementIndex == EntriesItems(items, 1)[c].elementIndex
  {
    hide Inv; hide ParseAll; hide RowsItems; hide EntriesItems; hide BandsItems; hide SelectorsItems; hide Resolved;
    hide PrintItems; hide CountCallables; hide CallsLand; hide AllLand; hide ResolveCalls;
    var text := PrintItems(items);
    PrintedParses(items);
    var st := ParseAll(text, START).value;
    var total := CountCallables(items);
    EntriesCount(items, 1);
    ResolvesWhenLanding(st, |st.elements|);
    assert st.elements[..|st.elements|] == st.elements;
    LandBoth([st.elements[0]], RowsItems(items, Base(1, NO_INDEX, 0, 0), 0), total);
    OtherLands(st.elements[0], total);
    ItemsLand(items, Base(1, NO_INDEX, 0, 0), 0, total);
    if ResolveCalls(TablesOf(st), |st.elements|).Some? {
      var L := ResolveCalls(TablesOf(st), |st.elements|).value;
      ResolveKeeps(st, |st.elements|);
      ResolvedTable(st, L);
      LeadsWhenFirst(items, L);
    }
  }

  lemma ResolvedTable(st: ParseState, L: Layout)
    requires Resolved(st, L, |st.elements|)
    ensures L.elements == SettledAll(st.elements) && L.bands == st.bands && L.selectors == st.selectors
    ensures |L.callables| == |st.callables|
    ensures forall c :: 0 <= c < |L.callables| ==> L.callables[c].elementIndex == st.callables[c].elementIndex
  {
    hide FlagUpTo; hide CountFlags;
    forall i: nat | i < |L.elements|
      ensures L.elements[i] == Settled(st.elements[i])
    {
      assert RowResolved(st, L, |st.elements|, i);
    }
  }

  lemma LeadsWhenFirst(items: seq<Item>, L: Layout)
    requires L.elements == SettledAll(RowsLayout(items)) && |L.callables| == CountCallables(items)
    requires |L.callables| == |EntriesItems(items, 1)|
    requires |L.callables| > 0 ==> L.callables[0].elementIndex == EntriesItems(items, 1)[0].elementIndex
    ensures CallablesFirst(L) <==> CallableLeads(items)
  {
    hide RowsItems; hide EntriesItems;
    EntriesCount(items, 1);
    assert L.elements[0] == Settled(RowsLayout(items)[0]);
    if |items| == 0 { assert CountCallables(items) == 0; }
  }

  //
  // Reading the tree back from the table
  //

  function WidthChar(size: nat): char {
    match size
    case 1 => 'B'
    case 2 => 'H'
    case 4 => 'I'
    case _ => 'V'
  }

  function MarkOf(kind: BciKind, signed: bool): Mark {
    match kind
    case NoBci => if signed then SignedMark else PlainMark
    case BciIndex => IndexMark
    case BciPreviousOffset => PreviousMark
    case BciOffset => if signed then SignedOffsetMark else OffsetMark
  }

  /** The two letters a reference kind is written with. */
  function LettersOf(kind: ReferenceKind): (char, char) {
    match kind
    case IntegerRef => ('K', 'I')
    case LongRef => ('K', 'J')
    case FloatRef => ('K', 'F')
    case DoubleRef => ('K', 'D')
    case StringRef => ('K', 'S')
    case FieldSpecificRef => ('K', 'Q')
    case LoadableRef => ('K', 'L')
    case MethodHandleRef => ('K', 'M')
    case MethodTypeRef => ('K', 'T')
    case ClassRef => ('R', 'C')
    case SignatureRef => ('R', 'S')
    case DescriptorRef => ('R', 'D')
    case FieldRef => ('R', 'F')
    case MethodRef => ('R', 'M')
    case InterfaceMethodRef => ('R', 'I')
    case Utf8Ref => ('R', 'U')
    case AnyRef => ('R', 'Q')
    case AnyMemberRef => ('R', 'N')
    case BootstrapMethodRef => ('R', 'B')
    case InvokeDynamicRef => ('R', 'Y')
    case NoReference => ('K', 'K')
  }

  /** The subtree whose own row is i, following the links of the table. */
  function NodeAt(L: Layout, i: nat): Node
    requires i < |L.elements|
    decreases |L.elements| - i, 0
  {
    var e := L.elements[i];
    var width := WidthChar(e.outputSize);
    match e.kind
    case Integral => IntegralNode(MarkOf(e.bciKind, e.signed), width)
    case Reference =>
      var letters := LettersOf(e.reference);
      ReferenceNode(letters.0, letters.1, e.nullable, width)
    case Replication => ReplicationNode(width, if i < e.firstChild then NodesFrom(L, e.firstChild) else [])
    case Union => UnionNode(e.signed, width, if i < e.firstChild then CasesFrom(L, e.firstChild) else [])
    case _ => CallNode(e.callOffset)
  }

  /** The siblings from row i on. */
  function NodesFrom(L: Layout, i: nat): seq<Node>
    decreases |L.elements| - i, 1
  {
    if i >= |L.elements| then []
    else [NodeAt(L, i)] + if i < L.elements[i].nextSibling then NodesFrom(L, L.elements[i].nextSibling) else []
  }

  function CaseAt(L: Layout, i: nat): Case
    requires i < |L.elements|
    decreases |L.elements| - i, 0
  {
    var e := L.elements[i];
    Case(if e.selectorOffset + e.selectorCount <= |L.selectors|
         then L.selectors[e.selectorOffset..e.selectorOffset + e.selectorCount] else [],
         if i < e.firstChild then NodesFrom(L, e.firstChild) else [])
  }

  function CasesFrom(L: Layout, i: nat): seq<Case>
    decreases |L.elements| - i, 1
  {
    if i >= |L.elements| then []
    else [CaseAt(L, i)] + if i < L.elements[i].nextSibling then CasesFrom(L, L.elements[i].nextSibling) else []
  }

  function ItemAt(L: Layout, i: nat): Item
    requires i < |L.elements|
  {
    var e := L.elements[i];
    if e.kind == Callable then CallableItem(if i < e.firstChild then NodesFrom(L, e.firstChild) else [])
    else NodeItem(NodeAt(L, i))
  }

  function ItemsFrom(L: Layout, i: nat): seq<Item>
    decreases |L.elements| - i
  {
    if i >= |L.elements| then []
    else [ItemAt(L, i)] + if i < L.elements[i].nextSibling then ItemsFrom(L, L.elements[i].nextSibling) else []
  }

  function Decompile(L: Layout): seq<Item>
    requires |L.elements| > 0
  {
    ItemsFrom(L, L.elements[0].firstChild)
  }

  /** The tree without its F marks, which the compiler drops. */
  function Unflagged(n: Node): Node
    decreases n, 0
  {
    match n
    case IntegralNode(mark, width) => IntegralNode(if mark == FlagMark then PlainMark else mark, width)
    case ReplicationNode(width, body) => ReplicationNode(width, UnflaggedSeq(body))
    case UnionNode(signed, width, cases) => UnionNode(signed, width, UnflaggedCases(cases))
    case _ => n
  }

  function UnflaggedSeq(nodes: seq<Node>): seq<Node>
    decreases nodes, 1
  {
    if |nodes| == 0 then [] else [Unflagged(nodes[0])] + UnflaggedSeq(nodes[1..])
  }

  function UnflaggedCases(cases: seq<Case>): seq<Case>
    decreases cases, 1
  {
    if |cases| == 0 then []
    else [Case(cases[0].ranges, UnflaggedSeq(cases[0].body))] + UnflaggedCases(cases[1..])
  }

  function UnflaggedItem(item: Item): Item {
    match item
    case CallableItem(body) => CallableItem(UnflaggedSeq(body))
    case NodeItem(node) => NodeItem(Unflagged(node))
  }

  function UnflaggedItems(items: seq<Item>): seq<Item> {
    if |items| == 0 then [] else [UnflaggedItem(items[0])] + UnflaggedItems(items[1..])
  }

  /** The given rows, calls settled, stand in the table from row `from` on. */
  predicate RowsStand(L: Layout, from: nat, rows: seq<Element>) {
    from + |rows| <= |L.elements| < NO_INDEX && L.elements[from..from + |rows|] == SettledAll(rows)
  }

  predicate SelectorsStand(L: Layout, from: nat, selectors: seq<SelectorRange>) {
    from + |selectors| <= |L.selectors| && L.selectors[from..from + |selectors|] == selectors
  }

  lemma RowsSplit(L: Layout, from: nat, a: seq<Element>, b: seq<Element>)
    requires RowsStand(L, from, a + b)
    ensures RowsStand(L, from, a) && RowsStand(L, from + |a|, b)
  {
    hide Settled;
    var all := L.elements[from..from + |a + b|];
    assert all[..|a|] == SettledAll(a) && all[|a|..] == SettledAll(b);
    assert L.elements[from..from + |a|] == all[..|a|] && L.elements[from + |a|..from + |a| + |b|] == all[|a|..];
  }

  lemma RowStands(L: Layout, from: nat, e: Element)
    requires RowsStand(L, from, [e])
    ensures from < |L.elements| < NO_INDEX && L.elements[from] == Settled(e)
  {
    assert L.elements[from..from + 1][0] == Settled(e);
  }

  lemma SelectorsSplit(L: Layout, from: nat, a: seq<SelectorRange>, b: seq<SelectorRange>)
    requires SelectorsStand(L, from, a + b)
    ensures SelectorsStand(L, from, a) && SelectorsStand(L, from + |a|, b)
  {
    var all := L.selectors[from..from + |a + b|];
    assert all[..|a|] == a && all[|a|..] == b;
    assert L.selectors[from..from + |a|] == all[..|a|] && L.selectors[from + |a|..from + |a| + |b|] == all[|a|..];
  }

  lemma WidthBack(c: char)
    requires IsWidth(c)
    ensures WidthChar(WidthBytes(c)) == c
  {
  }

  lemma LettersBack(prefix: char, kind: char)
    requires (prefix == 'K' || prefix == 'R') && ReferenceOf(prefix, kind) != NoReference
    ensures LettersOf(ReferenceOf(prefix, kind)) == (prefix, kind)
  {
  }

  lemma LeafRead(L: Layout, n: Node, at: Base, next: nat, inCallable: bool)
    requires ValidNode(n, inCallable) && (n.IntegralNode? || n.ReferenceNode? || n.CallNode?)
    requires at.row < |L.elements| && L.elements[at.row] == Settled(HeadRow(n, at, next))
    ensures NodeAt(L, at.row) == Unflagged(n)
  {
    hide ReferenceOf; hide LettersOf; hide WidthBytes; hide WidthChar; hide IsWidth;
    match n
    case IntegralNode(mark, width) => WidthBack(width);
    case ReferenceNode(prefix, kind, _, width) =>
      WidthBack(width);
      LettersBack(prefix, kind);
    case CallNode(_) =>
  }

  lemma {:induction false} NodeRead(L: Layout, n: Node, at: Base, next: nat, inCallable: bool)
    requires ValidNode(n, inCallable) && RowsStand(L, at.row, RowsNode(n, at, next))
    requires SelectorsStand(L, at.selector, SelectorsNode(n))
    ensures at.row < |L.elements| && NodeAt(L, at.row) == Unflagged(n) && L.elements[at.row].nextSibling == next
    decreases n, 0
  {
    hide RowsStand; hide SelectorsStand; hide RowsSeq; hide RowsCases; hide DisjointCases; hide WidthChar; hide WidthBytes; hide IsWidth;
    hide ValidSeq; hide ValidCases; hide SelectorsSeq; hide SelectorsCases; hide ReferenceOf; hide LettersOf; hide MarkOf;
    hide NodesFrom; hide CasesFrom;
    var head := HeadRow(n, at, next);
    var below := at.(row := at.row + 1, band := at.band + 1);
    match n
    case ReplicationNode(width, body) =>
      RowsSplit(L, at.row, [head], RowsSeq(body, below));
      RowStands(L, at.row, head);
      SeqRead(L, body, below, inCallable);
      WidthBack(width);
    case UnionNode(_, width, cases) =>
      RowsSplit(L, at.row, [head], RowsCases(cases, below));
      RowStands(L, at.row, head);
      CasesRead(L, cases, below, inCallable);
      WidthBack(width);
    case _ =>
      assert RowsNode(n, at, next) == [head];
      RowStands(L, at.row, head);
      LeafRead(L, n, at, next, inCallable);
  }

  /** Following the links from the first row of some siblings, or from "none" when there are none. */
  lemma {:induction false} SeqRead(L: Layout, nodes: seq<Node>, at: Base, inCallable: bool)
    requires ValidSeq(nodes, inCallable) && RowsStand(L, at.row, RowsSeq(nodes, at))
    requires SelectorsStand(L, at.selector, SelectorsSeq(nodes))
    ensures NodesFrom(L, if |nodes| > 0 then at.row else NO_INDEX) == UnflaggedSeq(nodes)
    decreases nodes, 1
  {
    hide SettledAll; hide Settled; hide SelectorsStand; hide RowsNode; hide ValidNode; hide SelectorsNode;
    hide NodeAt; hide Unflagged; hide BandsNode; hide Size;
    if |nodes| > 0 {
      var next := if |nodes| > 1 then at.row + Size(nodes[0]) else NO_INDEX;
      RowsSplit(L, at.row, RowsNode(nodes[0], at, next), RowsSeq(nodes[1..], After(at, nodes[0])));
      SelectorsSplit(L, at.selector, SelectorsNode(nodes[0]), SelectorsSeq(nodes[1..]));
      NodeRead(L, nodes[0], at, next, inCallable);
      SeqRead(L, nodes[1..], After(at, nodes[0]), inCallable);
    }
  }

  lemma {:induction false} CaseRead(L: Layout, c: Case, at: Base, next: nat, inCallable: bool)
    requires ValidSeq(c.body, inCallable) && RowsStand(L, at.row, RowsCase(c, at, next))
    requires SelectorsStand(L, at.selector, c.ranges + SelectorsSeq(c.body))
    ensures at.row < |L.elements| && CaseAt(L, at.row) == Case(c.ranges, UnflaggedSeq(c.body))
    ensures L.elements[at.row].nextSibling == next
    decreases c, 2
  {
    hide RowsStand; hide RowsSeq; hide ValidSeq; hide SelectorsSeq; hide NodesFrom; hide UnflaggedSeq;
    var below := at.(row := at.row + 1, selector := at.selector + |c.ranges|);
    RowsSplit(L, at.row, [CaseHead(c, at, next)], RowsSeq(c.body, below));
    RowStands(L, at.row, CaseHead(c, at, next));
    SelectorsSplit(L, at.selector, c.ranges, SelectorsSeq(c.body));
    SeqRead(L, c.body, below, inCallable);
  }

  lemma RowsInside(L: Layout, from: nat, rows: seq<Element>)
    requires RowsStand(L, from, rows)
    ensures from + |rows| <= |L.elements| < NO_INDEX
  {
  }

  lemma {:induction false} CasesRead(L: Layout, cases: seq<Case>, at: Base, inCallable: bool)
    requires ValidCases(cases, inCallable) && RowsStand(L, at.row, RowsCases(cases, at))
    requires SelectorsStand(L, at.selector, SelectorsCases(cases))
    ensures CasesFrom(L, if |cases| > 0 then at.row else NO_INDEX) == UnflaggedCases(cases)
    decreases cases, 1
  {
    hide SettledAll; hide Settled; hide SelectorsStand; hide RowsCase; hide ValidSeq; hide SelectorsSeq;
    hide CaseAt; hide UnflaggedSeq; hide BandsSeq; hide SizeSeq; hide RowsStand; hide ValidRange;
    RowsInside(L, at.row, RowsCases(cases, at));
    if |cases| > 0 {
      var c := cases[0];
      var next := if |cases| > 1 then at.row + 1 + SizeSeq(c.body) else NO_INDEX;
      RowsSplit(L, at.row, RowsCase(c, at, next), RowsCases(cases[1..], AfterCase(at, c)));
      SelectorsSplit(L, at.selector, c.ranges + SelectorsSeq(c.body), SelectorsCases(cases[1..]));
      CaseRead(L, c, at, next, inCallable);
      CasesRead(L, cases[1..], AfterCase(at, c), inCallable);
      assert CasesFrom(L, at.row) == [CaseAt(L, at.row)] + CasesFrom(L, next);
    }
  }

  lemma ItemRead(L: Layout, item: Item, at: Base, k: nat, next: nat)
    requires ValidItem(item) && RowsStand(L, at.row, RowsItem(item, at, k, next))
    requires SelectorsStand(L, at.selector, SelectorsSeq(BodyOf(item)))
    ensures at.row < |L.elements| && ItemAt(L, at.row) == UnflaggedItem(item) && L.elements[at.row].nextSibling == next
  {
    hide RowsStand; hide SelectorsStand; hide RowsSeq; hide ValidSeq; hide ValidNode; hide NodesFrom;
    hide UnflaggedSeq; hide SelectorsSeq;
    hide Unflagged; hide RowsNode; hide NodeAt;
    match item
    case NodeItem(node) =>
      OneNode(node);
      NodeKind(node, at, next);
      NodeRead(L, node, at, next, false);
      RowsSplit(L, at.row, RowsNode(node, at, next)[..1], RowsNode(node, at, next)[1..]) by {
        assert RowsNode(node, at, next)[..1] + RowsNode(node, at, next)[1..] == RowsNode(node, at, next);
      }
      RowStands(L, at.row, HeadRow(node, at, next));
    case CallableItem(body) =>
      var head := Element(Callable, firstChild := Below(at.row, |body| > 0), nextSibling := next, callableIndex := k);
      var below := at.(row := at.row + 1, callable := k);
      RowsSplit(L, at.row, [head], RowsSeq(body, below));
      RowStands(L, at.row, head);
      SeqRead(L, body, below, true);
  }

  lemma NodeKind(n: Node, at: Base, next: nat)
    ensures RowsNode(n, at, next)[..1] == [HeadRow(n, at, next)] && HeadRow(n, at, next).kind != Callable
  {
    hide RowsSeq; hide RowsCases;
  }

  lemma {:induction false} ItemsRead(L: Layout, items: seq<Item>, at: Base, k: nat)
    requires ValidItems(items) && RowsStand(L, at.row, RowsItems(items, at, k))
    requires SelectorsStand(L, at.selector, SelectorsItems(items))
    ensures ItemsFrom(L, if |items| > 0 then at.row else NO_INDEX) == UnflaggedItems(items)
    decreases |items|
  {
    hide SettledAll; hide Settled; hide SelectorsStand; hide RowsItem; hide ValidItem; hide SelectorsSeq;
    hide ItemAt; hide UnflaggedItem; hide BandsSeq; hide SizeItem;
    hide BodyOf;
    if |items| > 0 {
      var next := if |items| > 1 then at.row + SizeItem(items[0]) else NO_INDEX;
      var k' := k + if items[0].CallableItem? then 1 else 0;
      RowsSplit(L, at.row, RowsItem(items[0], at, k, next), RowsItems(items[1..], AfterItem(at, items[0]), k'));
      SelectorsSplit(L, at.selector, SelectorsSeq(BodyOf(items[0])), SelectorsItems(items[1..]));
      assert ValidItem(items[0]);
      ItemRead(L, items[0], at, k, next);
      ItemsRead(L, items[1..], AfterItem(at, items[0]), k');
    }
  }

  /** Print, compile, and follow the links: the tree comes back, but for its F marks. */
  lemma CompileInverts(items: seq<Item>)
    requires ValidItems(items) && |PrintItems(items)| <= MAX_LAYOUT_LENGTH && CompileText(PrintItems(items)).Some?
    ensures var L := CompileText(PrintItems(items)).value;
            |L.elements| > 0 && Decompile(L) == UnflaggedItems(items)
  {
    hide ParseAll; hide RowsItems; hide EntriesItems; hide BandsItems; hide SelectorsItems; hide PrintItems; hide Inv;
    hide ItemsFrom; hide UnflaggedItems; hide ResolveCalls; hide ValidItems; hide CallsLand;
    PrintedCompiles(items);
    var L := CompileText(PrintItems(items)).value;
    var rows := RowsItems(items, Base(1, NO_INDEX, 0, 0), 0);
    var head := Element(Sequence, firstChild := Below(0, |items| > 0));
    TableSmall(items);
    assert L.elements[0..|L.elements|] == L.elements;
    assert L.selectors[0..|L.selectors|] == L.selectors;
    RowsSplit(L, 0, [head], rows);
    RowStands(L, 0, head);
    ItemsRead(L, items, Base(1, NO_INDEX, 0, 0), 0);
  }

  lemma TableSmall(items: seq<Item>)
    requires ValidItems(items) && |PrintItems(items)| <= MAX_LAYOUT_LENGTH
    ensures |RowsLayout(items)| < NO_INDEX
  {
    hide ParseAll; hide RowsLayout;
    PrintedParses(items);
  }
}
