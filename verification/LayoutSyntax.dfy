// The layout language as trees: printing a tree, and the element table it stands for, laid out in
// preorder with every link computed from subtree sizes.
module LayoutSyntax {
  import opened Common
  import opened LayoutModel
  import opened LayoutParser

  /** How an integral is written: width alone, S, F, P, PO, O or OS before it. */
  datatype Mark = PlainMark | SignedMark | FlagMark | IndexMark | PreviousMark | OffsetMark | SignedOffsetMark

  datatype Node =
    | IntegralNode(mark: Mark, width: char)
    | ReferenceNode(prefix: char, kind: char, nullable: bool, width: char)
    | ReplicationNode(width: char, body: seq<Node>)
    | UnionNode(signed: bool, width: char, cases: seq<Case>)
    | CallNode(offset: int)

  /** A union case; the default case has no ranges. */
  datatype Case = Case(ranges: seq<SelectorRange>, body: seq<Node>)

  datatype Item = CallableItem(body: seq<Node>) | NodeItem(node: Node)

  //
  // Printing
  //

  function PrintNat(n: nat): (r: string)
    ensures |r| > 0 && forall k :: 0 <= k < |r| ==> IsDigit(r[k])
  {
    var last := [('0' as int + n % 10) as char];
    if n < 10 then last else PrintNat(n / 10) + last
  }

  function PrintInt(v: int): string {
    if v < 0 then "-" + PrintNat(-v) else PrintNat(v)
  }

  function PrintRange(r: SelectorRange): string {
    if r.first == r.last then PrintInt(r.first) else PrintInt(r.first) + "-" + PrintInt(r.last)
  }

  function PrintRanges(ranges: seq<SelectorRange>): string {
    if |ranges| == 0 then ""
    else if |ranges| == 1 then PrintRange(ranges[0])
    else PrintRange(ranges[0]) + "," + PrintRanges(ranges[1..])
  }

  function MarkText(mark: Mark): string {
    match mark
    case PlainMark => ""
    case SignedMark => "S"
    case FlagMark => "F"
    case IndexMark => "P"
    case PreviousMark => "PO"
    case OffsetMark => "O"
    case SignedOffsetMark => "OS"
  }

  function PrintNode(n: Node): string
    decreases n, 0
  {
    match n
    case IntegralNode(mark, width) => MarkText(mark) + [width]
    case ReferenceNode(prefix, kind, nullable, width) => [prefix, kind] + (if nullable then "N" else "") + [width]
    case ReplicationNode(width, body) => ['N', width, '['] + (PrintSeq(body) + "]")
    case UnionNode(signed, width, cases) => (if signed then "TS" else "T") + [width] + PrintCases(cases)
    case CallNode(offset) => "(" + (PrintInt(offset) + ")")
  }

  function PrintSeq(nodes: seq<Node>): string
    decreases nodes, 1
  {
    if |nodes| == 0 then "" else PrintNode(nodes[0]) + PrintSeq(nodes[1..])
  }

  function PrintCase(c: Case): string
    decreases c, 0
  {
    ("(" + PrintRanges(c.ranges) + ")[") + (PrintSeq(c.body) + "]")
  }

  function PrintCases(cases: seq<Case>): string
    decreases cases, 1
  {
    if |cases| == 0 then "" else PrintCase(cases[0]) + PrintCases(cases[1..])
  }

  function PrintItem(item: Item): string {
    match item
    case CallableItem(body) => "[" + (PrintSeq(body) + "]")
    case NodeItem(node) => PrintNode(node)
  }

  function PrintItems(items: seq<Item>): string {
    if |items| == 0 then "" else PrintItem(items[0]) + PrintItems(items[1..])
  }

  //
  // The element table of a tree
  //

  function Size(n: Node): (r: nat)
    ensures r >= 1
    decreases n, 0
  {
    match n
    case ReplicationNode(_, body) => 1 + SizeSeq(body)
    case UnionNode(_, _, cases) => 1 + SizeCases(cases)
    case _ => 1
  }

  function SizeSeq(nodes: seq<Node>): nat
    decreases nodes, 1
  {
    if |nodes| == 0 then 0 else Size(nodes[0]) + SizeSeq(nodes[1..])
  }

  function SizeCases(cases: seq<Case>): nat
    decreases cases, 1
  {
    if |cases| == 0 then 0 else 1 + SizeSeq(cases[0].body) + SizeCases(cases[1..])
  }

  function BciOf(mark: Mark): BciKind {
    match mark
    case IndexMark => BciIndex
    case PreviousMark => BciPreviousOffset
    case OffsetMark => BciOffset
    case SignedOffsetMark => BciOffset
    case _ => NoBci
  }

  predicate IsSigned(mark: Mark) {
    mark == SignedMark || mark == SignedOffsetMark
  }

  function ValueCoding(signed: bool, width: char): CodingKind {
    if signed then Signed5 else if width == 'B' then Byte1 else Unsigned5
  }

  function IntegralCoding(mark: Mark, width: char): CodingKind {
    match BciOf(mark)
    case NoBci => ValueCoding(IsSigned(mark), width)
    case BciIndex => Bci5
    case _ => Branch5
  }

  function BandsNode(n: Node): seq<Band>
    decreases n, 0
  {
    match n
    case IntegralNode(mark, width) => [Band(IntegralCoding(mark, width), NoReference, WidthBytes(width), false)]
    case ReferenceNode(prefix, kind, nullable, width) =>
      [Band(Unsigned5, ReferenceOf(prefix, kind), WidthBytes(width), nullable)]
    case ReplicationNode(width, body) =>
      [Band(ValueCoding(false, width), NoReference, WidthBytes(width), false)] + BandsSeq(body)
    case UnionNode(signed, width, cases) =>
      [Band(ValueCoding(signed, width), NoReference, WidthBytes(width), false)] + BandsCases(cases)
    case CallNode(_) => []
  }

  function BandsSeq(nodes: seq<Node>): seq<Band>
    decreases nodes, 1
  {
    if |nodes| == 0 then [] else BandsNode(nodes[0]) + BandsSeq(nodes[1..])
  }

  function BandsCases(cases: seq<Case>): seq<Band>
    decreases cases, 1
  {
    if |cases| == 0 then [] else BandsSeq(cases[0].body) + BandsCases(cases[1..])
  }

  function SelectorsNode(n: Node): seq<SelectorRange>
    decreases n, 0
  {
    match n
    case ReplicationNode(_, body) => SelectorsSeq(body)
    case UnionNode(_, _, cases) => SelectorsCases(cases)
    case _ => []
  }

  function SelectorsSeq(nodes: seq<Node>): seq<SelectorRange>
    decreases nodes, 1
  {
    if |nodes| == 0 then [] else SelectorsNode(nodes[0]) + SelectorsSeq(nodes[1..])
  }

  function SelectorsCases(cases: seq<Case>): seq<SelectorRange>
    decreases cases, 1
  {
    if |cases| == 0 then [] else (cases[0].ranges + SelectorsSeq(cases[0].body)) + SelectorsCases(cases[1..])
  }

  /** Where a subtree starts: its first row, its callable, and its first band and selector. */
  datatype Base = Base(row: nat, callable: nat, band: nat, selector: nat)

  function After(at: Base, n: Node): Base {
    at.(row := at.row + Size(n), band := at.band + |BandsNode(n)|, selector := at.selector + |SelectorsNode(n)|)
  }

  function AfterCase(at: Base, c: Case): Base {
    at.(row := at.row + 1 + SizeSeq(c.body), band := at.band + |BandsSeq(c.body)|,
        selector := at.selector + |c.ranges| + |SelectorsSeq(c.body)|)
  }

  /** The row directly below `row`, when there is one. */
  function Below(row: nat, any: bool): nat {
    if any then row + 1 else NO_INDEX
  }

  /** The row of node n itself, with `next` as its next sibling. */
  function HeadRow(n: Node, at: Base, next: nat): Element {
    match n
    case IntegralNode(mark, width) =>
      Element(Integral, bciKind := BciOf(mark), nextSibling := next, bandIndex := at.band,
              outputSize := WidthBytes(width), signed := IsSigned(mark))
    case ReferenceNode(prefix, kind, nullable, width) =>
      Element(Reference, reference := ReferenceOf(prefix, kind), nextSibling := next, bandIndex := at.band,
              outputSize := WidthBytes(width), nullable := nullable)
    case ReplicationNode(width, body) =>
      Element(Replication, firstChild := Below(at.row, |body| > 0), nextSibling := next, bandIndex := at.band,
              outputSize := WidthBytes(width))
    case UnionNode(signed, width, cases) =>
      Element(Union, firstChild := Below(at.row, |cases| > 0), nextSibling := next, bandIndex := at.band,
              outputSize := WidthBytes(width), signed := signed)
    case CallNode(offset) =>
      Element(Call, nextSibling := next, callOffset := offset, callableIndex := at.callable)
  }

  /** The rows of one subtree in preorder. */
  function RowsNode(n: Node, at: Base, next: nat): (r: seq<Element>)
    ensures |r| == Size(n)
    decreases n, 0
  {
    [HeadRow(n, at, next)] +
    match n
    case ReplicationNode(_, body) => RowsSeq(body, at.(row := at.row + 1, band := at.band + 1))
    case UnionNode(_, _, cases) => RowsCases(cases, at.(row := at.row + 1, band := at.band + 1))
    case _ => []
  }

  /** The rows of consecutive siblings; each points at the next, the last at nothing. */
  function RowsSeq(nodes: seq<Node>, at: Base): (r: seq<Element>)
    ensures |r| == SizeSeq(nodes)
    decreases nodes, 1
  {
    if |nodes| == 0 then [] else
    RowsNode(nodes[0], at, if |nodes| > 1 then at.row + Size(nodes[0]) else NO_INDEX)
      + RowsSeq(nodes[1..], After(at, nodes[0]))
  }

  function CaseHead(c: Case, at: Base, next: nat): Element {
    Element(UnionCase, firstChild := Below(at.row, |c.body| > 0), nextSibling := next,
            selectorOffset := at.selector, selectorCount := |c.ranges|)
  }

  /** The rows of one case, its own row first. */
  function RowsCase(c: Case, at: Base, next: nat): (r: seq<Element>)
    ensures |r| == 1 + SizeSeq(c.body)
    decreases c, 2
  {
    [CaseHead(c, at, next)] + RowsSeq(c.body, at.(row := at.row + 1, selector := at.selector + |c.ranges|))
  }

  function RowsCases(cases: seq<Case>, at: Base): (r: seq<Element>)
    ensures |r| == SizeCases(cases)
    decreases cases, 1
  {
    if |cases| == 0 then [] else
    RowsCase(cases[0], at, if |cases| > 1 then at.row + 1 + SizeSeq(cases[0].body) else NO_INDEX)
      + RowsCases(cases[1..], AfterCase(at, cases[0]))
  }

  //
  // Whole layouts
  //

  function SizeItem(item: Item): (r: nat)
    ensures r >= 1
  {
    match item
    case CallableItem(body) => 1 + SizeSeq(body)
    case NodeItem(node) => Size(node)
  }

  function BodyOf(item: Item): seq<Node> {
    match item
    case CallableItem(body) => body
    case NodeItem(node) => [node]
  }

  function BandsItems(items: seq<Item>): seq<Band> {
    if |items| == 0 then [] else BandsSeq(BodyOf(items[0])) + BandsItems(items[1..])
  }

  function SelectorsItems(items: seq<Item>): seq<SelectorRange> {
    if |items| == 0 then [] else SelectorsSeq(BodyOf(items[0])) + SelectorsItems(items[1..])
  }

  /** The callables among the items, the first item being at the given row. */
  function EntriesItems(items: seq<Item>, row: nat): seq<CallableEntry> {
    if |items| == 0 then []
    else (if items[0].CallableItem? then [CallableEntry(row, false)] else [])
           + EntriesItems(items[1..], row + SizeItem(items[0]))
  }

  /** The rows of one top-level item; k callables come before it. */
  function RowsItem(item: Item, at: Base, k: nat, next: nat): (r: seq<Element>)
    ensures |r| == SizeItem(item)
  {
    match item
    case CallableItem(body) =>
      [Element(Callable, firstChild := Below(at.row, |body| > 0), nextSibling := next, callableIndex := k)]
        + RowsSeq(body, at.(row := at.row + 1, callable := k))
    case NodeItem(node) => RowsNode(node, at, next)
  }

  function AfterItem(at: Base, item: Item): Base {
    at.(row := at.row + SizeItem(item), band := at.band + |BandsSeq(BodyOf(item))|,
        selector := at.selector + |SelectorsSeq(BodyOf(item))|)
  }

  function RowsItems(items: seq<Item>, at: Base, k: nat): seq<Element> {
    if |items| == 0 then [] else
    RowsItem(items[0], at, k, if |items| > 1 then at.row + SizeItem(items[0]) else NO_INDEX)
      + RowsItems(items[1..], AfterItem(at, items[0]), k + if items[0].CallableItem? then 1 else 0)
  }

  /** The whole element table of a layout, before its calls are resolved. */
  function RowsLayout(items: seq<Item>): seq<Element> {
    [Element(Sequence, firstChild := Below(0, |items| > 0))] + RowsItems(items, Base(1, NO_INDEX, 0, 0), 0)
  }

  //
  // Well-formed trees
  //

  predicate ValidNode(n: Node, inCallable: bool)
    decreases n, 0
  {
    match n
    case IntegralNode(_, width) => IsWidth(width)
    case ReferenceNode(prefix, kind, _, width) =>
      (prefix == 'K' || prefix == 'R') && ReferenceOf(prefix, kind) != NoReference && IsWidth(width)
    case ReplicationNode(width, body) => IsWidth(width) && ValidSeq(body, inCallable)
    case UnionNode(_, width, cases) =>
      && IsWidth(width) && ValidCases(cases, inCallable) && DisjointCases(cases)
      && |cases| > 0 && forall k :: 0 <= k < |cases| ==> (cases[k].ranges == [] <==> k == |cases| - 1)
    case CallNode(offset) => inCallable && -0x8000_0000 <= offset < 0x8000_0000
  }

  predicate ValidSeq(nodes: seq<Node>, inCallable: bool)
    decreases nodes, 1
  {
    |nodes| == 0 || (ValidNode(nodes[0], inCallable) && ValidSeq(nodes[1..], inCallable))
  }

  predicate ValidRange(r: SelectorRange) {
    -0x8000_0000 <= r.first <= r.last < 0x8000_0000
  }

  predicate ValidCases(cases: seq<Case>, inCallable: bool)
    decreases cases, 1
  {
    |cases| == 0 ||
    (&& (forall k :: 0 <= k < |cases[0].ranges| ==> ValidRange(cases[0].ranges[k]))
     && ValidSeq(cases[0].body, inCallable)
     && ValidCases(cases[1..], inCallable))
  }

  /** No two cases of the union have overlapping ranges. */
  predicate DisjointCases(cases: seq<Case>) {
    forall a, b, j, k :: 0 <= a < b < |cases| && 0 <= j < |cases[a].ranges| && 0 <= k < |cases[b].ranges| ==>
      !Overlap(cases[a].ranges[j], cases[b].ranges[k])
  }

  predicate ValidItem(item: Item) {
    match item
    case CallableItem(body) => ValidSeq(body, true)
    case NodeItem(node) => ValidNode(node, false)
  }

  predicate ValidItems(items: seq<Item>) {
    forall i :: 0 <= i < |items| ==> ValidItem(items[i])
  }

  /** Every call below n, standing in callable c, lands on one of the `total` callables. */
  predicate CallsNode(n: Node, c: nat, total: nat)
    decreases n, 0
  {
    match n
    case ReplicationNode(_, body) => CallsSeq(body, c, total)
    case UnionNode(_, _, cases) => CallsCases(cases, c, total)
    case CallNode(offset) => 0 <= c + offset < total
    case _ => true
  }

  predicate CallsSeq(nodes: seq<Node>, c: nat, total: nat)
    decreases nodes, 1
  {
    |nodes| == 0 || (CallsNode(nodes[0], c, total) && CallsSeq(nodes[1..], c, total))
  }

  predicate CallsCases(cases: seq<Case>, c: nat, total: nat)
    decreases cases, 1
  {
    |cases| == 0 || (CallsSeq(cases[0].body, c, total) && CallsCases(cases[1..], c, total))
  }

  function CountCallables(items: seq<Item>): nat {
    if |items| == 0 then 0 else (if items[0].CallableItem? then 1 else 0) + CountCallables(items[1..])
  }

  /** Every call of the items lands on a callable; k callables come before them. */
  predicate CallsLand(items: seq<Item>, k: nat, total: nat) {
    |items| == 0 ||
    (if items[0].CallableItem? then CallsSeq(items[0].body, k, total) && CallsLand(items[1..], k + 1, total)
     else CallsLand(items[1..], k, total))
  }

  /** A layout with callables begins with one. */
  predicate CallableLeads(items: seq<Item>) {
    CountCallables(items) > 0 ==> items[0].CallableItem?
  }
}
