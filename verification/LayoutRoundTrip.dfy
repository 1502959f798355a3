// Printing a layout tree and compiling the text gives back the element table of that tree: the
// compiler accepts exactly the trees whose calls land, and the table can be read back as the tree.
module LayoutRoundTrip {
  import opened Common
  import opened LayoutModel
  import opened LayoutParser
  import opened LayoutParserSound
  import opened LayoutCompile
  import opened LayoutSyntax
  import opened LayoutReading
  import opened LayoutSimulation

  //
  // The top level
  //

  /** Only the sequence that is the whole layout is open. */
  predicate AtTop(st: ParseState) {
    |st.frames| == 1 && Top(st) == ParseFrame(SequenceFrame, 0, lastChild := Top(st).lastChild)
  }

  ghost predicate ItemsBuilt(text: string, st: ParseState, r: ParseState, rows: seq<Element>, bands: seq<Band>,
                             entries: seq<CallableEntry>, selectors: seq<SelectorRange>, length: nat)
    requires st.frames != []
  {
    && Reaches(text, st, r) && AtTop(r)
    && r.elements == Under(st, rows) && r.bands == st.bands + bands && r.callables == st.callables + entries
    && r.selectors == st.selectors + selectors && r.position == st.position + length
  }

  function CallableOpened(st: ParseState): ParseState
    requires st.frames != []
  {
    var st1 := AddElement(st.(position := st.position + 1), Element(Callable, callableIndex := |st.callables|));
    PushFrame(st1.(callables := st1.callables + [CallableEntry(|st.elements|, false)]),
              ParseFrame(SequenceFrame, |st.elements|, callableIndex := |st.callables|, hasClosingBracket := true))
  }

  lemma CallableStep(text: string, st: ParseState)
    requires Ready(text, st) && AtTop(st) && Has(text, st.position, "[")
    ensures ParseStep(text, st) == Some(CallableOpened(st))
  {
    hide Inv; hide AddElement; hide HasRoom; hide Has;
    HasAt(text, st.position, "[", 0);
    Room(text, st);
  }

  lemma CallableOpenedGrows(st: ParseState)
    requires st.frames != []
    ensures var r := CallableOpened(st);
      && |r.frames| == |st.frames| + 1
      && r.frames[..|st.frames|] == st.frames[..|st.frames| - 1] + [Top(st).(lastChild := |st.elements|)]
      && Top(r) == ParseFrame(SequenceFrame, |st.elements|, callableIndex := |st.callables|, hasClosingBracket := true)
      && r.elements == Link(st.elements, Top(st).parent, Top(st).lastChild)
                       + [Element(Callable, callableIndex := |st.callables|)]
      && r.bands == st.bands && r.selectors == st.selectors && r.position == st.position + 1
      && r.callables == st.callables + [CallableEntry(|st.elements|, false)]
      && BaseOf(r) == BaseOf(st).(row := |st.elements| + 1, callable := |st.callables|)
  {
    hide Link;
  }

  function EntryOf(item: Item, row: nat): seq<CallableEntry> {
    if item.CallableItem? then [CallableEntry(row, false)] else []
  }

  lemma SimItem(text: string, st: ParseState, item: Item) returns (r: ParseState)
    requires Ready(text, st) && AtTop(st) && ValidItem(item) && Has(text, st.position, PrintItem(item))
    ensures ItemsBuilt(text, st, r, RowsItem(item, BaseOf(st), |st.callables|, NO_INDEX), BandsSeq(BodyOf(item)),
                       EntryOf(item, |st.elements|), SelectorsSeq(BodyOf(item)), |PrintItem(item)|)
    ensures Top(r).lastChild == |st.elements|
  {
    hide Inv; hide Bounded; hide Reaches; hide Has; hide Link; hide RowsNode; hide RowsSeq; hide BandsNode; hide SelectorsNode;
    hide PrintNode; hide PrintSeq;
    match item
    case NodeItem(node) =>
      r := SimNode(text, st, node);
      OneNode(node);
      assert st.callables + [] == st.callables;
    case CallableItem(body) =>
      r := SimCallable(text, st, body);
  }

  lemma OneNode(node: Node)
    ensures BandsSeq([node]) == BandsNode(node) && SelectorsSeq([node]) == SelectorsNode(node)
  {
    hide BandsNode; hide SelectorsNode;
    assert [node][1..] == [];
  }

  lemma SimCallable(text: string, st: ParseState, body: seq<Node>) returns (r: ParseState)
    requires Ready(text, st) && AtTop(st) && ValidSeq(body, true)
    requires Has(text, st.position, PrintItem(CallableItem(body)))
    ensures ItemsBuilt(text, st, r, RowsItem(CallableItem(body), BaseOf(st), |st.callables|, NO_INDEX), BandsSeq(body),
                       [CallableEntry(|st.elements|, false)], SelectorsSeq(body), |PrintItem(CallableItem(body))|)
    ensures Top(r).lastChild == |st.elements|
  {
    hide Inv; hide Bounded; hide Reaches; hide Has; hide Link; hide ParseStep; hide CallableOpened; hide Under; hide ParseAll;
    hide RowsSeq; hide BandsSeq; hide SelectorsSeq; hide PrintSeq;
    HasSplit(text, st.position, "[", PrintSeq(body) + "]");
    HasSplit(text, st.position + 1, PrintSeq(body), "]");
    CallableStep(text, st);
    var st1 := CallableOpened(st);
    Turn(text, st, st1);
    CallableOpenedGrows(st);
    ReadyOn(text, st, st1);
    FewCallables(text, st);
    var r2 := SimSeq(text, st1, body);
    ReadyOn(text, st1, r2);
    r := SimClose(text, r2);
    ReachesOn(text, st, st1, r2);
    ReachesOn(text, st, r2, r);
    CallableCloses(st, body, r2, r);
  }

  lemma FewCallables(text: string, st: ParseState)
    requires Ready(text, st)
    ensures |st.callables| < NO_INDEX
  {
    hide Inv;
  }

  lemma CallableCloses(st: ParseState, body: seq<Node>, r2: ParseState, r: ParseState)
    requires AtTop(st)
    requires var st1 := CallableOpened(st);
             && SameStack(st1, r2)
             && GrownBy(st1, r2, Under(st1, RowsSeq(body, BaseOf(st1))), BandsSeq(body), SelectorsSeq(body), |PrintSeq(body)|)
    requires r2.frames != [] && r == PopFrame(r2).(position := r2.position + 1)
    ensures AtTop(r) && Top(r).lastChild == |st.elements|
    ensures r.elements == Under(st, RowsItem(CallableItem(body), BaseOf(st), |st.callables|, NO_INDEX))
    ensures r.bands == st.bands + BandsSeq(body) && r.selectors == st.selectors + SelectorsSeq(body)
    ensures r.callables == st.callables + [CallableEntry(|st.elements|, false)]
    ensures r.position == st.position + |PrintItem(CallableItem(body))|
  {
    hide Link; hide CallableOpened; hide Under; hide BandsSeq; hide SelectorsSeq; hide PrintSeq; hide RowsSeq;
    var st1 := CallableOpened(st);
    CallableOpenedGrows(st);
    var head := Element(Callable, callableIndex := |st.callables|);
    var rows := RowsSeq(body, BaseOf(st1));
    var L0 := Link(st.elements, Top(st).parent, Top(st).lastChild);
    FirstBelow(L0, head, rows, st1);
    RowsAny(body, BaseOf(st1));
    var all := RowsItem(CallableItem(body), BaseOf(st), |st.callables|, NO_INDEX);
    assert Under(st1, rows) == L0 + all;
    UnderSome(st, all);
    assert r.frames == st1.frames[..|st.frames|];
  }

  lemma ItemNext(item: Item, at: Base, k: nat, next: nat)
    ensures RowsItem(item, at, k, NO_INDEX) != []
    ensures RowsItem(item, at, k, next)
         == RowsItem(item, at, k, NO_INDEX)[0 := RowsItem(item, at, k, NO_INDEX)[0].(nextSibling := next)]
  {
    hide RowsSeq; hide RowsNode;
    match item
    case NodeItem(node) => RowsNext(node, at, next);
    case CallableItem(_) =>
  }

  lemma ItemsJoin(text: string, st: ParseState, mid: ParseState, items: seq<Item>)
    requires AtTop(st) && |items| > 0 && |mid.elements| < NO_INDEX && Top(st).callableIndex == NO_INDEX
    requires ItemsBuilt(text, st, mid, RowsItem(items[0], BaseOf(st), |st.callables|, NO_INDEX), BandsSeq(BodyOf(items[0])),
                        EntryOf(items[0], |st.elements|), SelectorsSeq(BodyOf(items[0])), |PrintItem(items[0])|)
    requires Top(mid).lastChild == |st.elements|
    ensures Under(mid, RowsItems(items[1..], BaseOf(mid), |mid.callables|)) == Under(st, RowsItems(items, BaseOf(st), |st.callables|))
  {
    hide Reaches; hide RowsItem; hide Link; hide BandsSeq; hide SelectorsSeq; hide PrintItem; hide SizeItem; hide BodyOf;
    var at, k := BaseOf(st), |st.callables|;
    var L0 := Link(st.elements, 0, Top(st).lastChild);
    var first := RowsItem(items[0], at, k, NO_INDEX);
    ItemNext(items[0], at, k, |mid.elements|);
    assert BaseOf(mid) == AfterItem(at, items[0]);
    if |items| > 1 {
      LinkPlus(L0, first, at.row, |mid.elements|);
      ItemsSome(items[1..], BaseOf(mid), |mid.callables|);
      Regroup(L0, RowsItem(items[0], at, k, |mid.elements|), RowsItems(items[1..], BaseOf(mid), |mid.callables|));
    } else {
      assert RowsItems(items, at, k) == first + RowsItems(items[1..], BaseOf(mid), |mid.callables|) == first;
    }
  }

  lemma ItemsSome(items: seq<Item>, at: Base, k: nat)
    requires |items| > 0
    ensures RowsItems(items, at, k) != []
  {
    hide RowsItem; hide AfterItem; hide SizeItem;
    ItemNext(items[0], at, k, if |items| > 1 then at.row + SizeItem(items[0]) else NO_INDEX);
  }

  lemma ItemTables(items: seq<Item>, row: nat)
    requires |items| > 0
    ensures BandsItems(items) == BandsSeq(BodyOf(items[0])) + BandsItems(items[1..])
    ensures SelectorsItems(items) == SelectorsSeq(BodyOf(items[0])) + SelectorsItems(items[1..])
    ensures EntriesItems(items, row) == EntryOf(items[0], row) + EntriesItems(items[1..], row + SizeItem(items[0]))
  {
    hide BandsSeq; hide SelectorsSeq; hide BodyOf; hide SizeItem;
  }

  lemma ItemsGrowthJoins(st: ParseState, mid: ParseState, r: ParseState, items: seq<Item>)
    requires |items| > 0 && |mid.elements| == |st.elements| + SizeItem(items[0])
    requires mid.bands == st.bands + BandsSeq(BodyOf(items[0])) && r.bands == mid.bands + BandsItems(items[1..])
    requires mid.selectors == st.selectors + SelectorsSeq(BodyOf(items[0]))
    requires r.selectors == mid.selectors + SelectorsItems(items[1..])
    requires mid.callables == st.callables + EntryOf(items[0], |st.elements|)
    requires r.callables == mid.callables + EntriesItems(items[1..], |mid.elements|)
    ensures r.bands == st.bands + BandsItems(items) && r.selectors == st.selectors + SelectorsItems(items)
    ensures r.callables == st.callables + EntriesItems(items, |st.elements|)
  {
    hide *;
    ItemTables(items, |st.elements|);
    Regroup(st.bands, BandsSeq(BodyOf(items[0])), BandsItems(items[1..]));
    Regroup(st.selectors, SelectorsSeq(BodyOf(items[0])), SelectorsItems(items[1..]));
    Regroup(st.callables, EntryOf(items[0], |st.elements|), EntriesItems(items[1..], |mid.elements|));
  }

  lemma {:induction false} SimItems(text: string, st: ParseState, items: seq<Item>) returns (r: ParseState)
    requires Ready(text, st) && AtTop(st) && ValidItems(items) && Has(text, st.position, PrintItems(items))
    ensures ItemsBuilt(text, st, r, RowsItems(items, BaseOf(st), |st.callables|), BandsItems(items),
                       EntriesItems(items, |st.elements|), SelectorsItems(items), |PrintItems(items)|)
    decreases |items|
  {
    hide Inv; hide Bounded; hide Reaches; hide Has; hide RowsItem; hide Link; hide BandsSeq; hide SelectorsSeq;
    hide PrintItem; hide ValidItem; hide BodyOf; hide SizeItem;
    if |items| == 0 {
      r := st;
      assert st.bands + [] == st.bands && st.selectors + [] == st.selectors && st.callables + [] == st.callables;
      ReachesSelf(text, st);
    } else {
      HasSplit(text, st.position, PrintItem(items[0]), PrintItems(items[1..]));
      var mid := SimItem(text, st, items[0]);
      ReadyOn(text, st, mid);
      r := SimItems(text, mid, items[1..]);
      ReachesOn(text, st, mid, r);
      ReadySmall(text, mid);
      ItemsJoin(text, st, mid, items);
      ItemNext(items[0], BaseOf(st), |st.callables|, NO_INDEX);
      ItemsGrowthJoins(st, mid, r, items);
    }
  }

  /** The whole text of a valid tree parses, to exactly the tables of the tree. */
  lemma PrintedParses(items: seq<Item>)
    requires ValidItems(items) && |PrintItems(items)| <= MAX_LAYOUT_LENGTH
    ensures ParseAll(PrintItems(items), START).Some?
    ensures var st := ParseAll(PrintItems(items), START).value;
      && st.position == |PrintItems(items)| && Inv(st) && st.frames == []
      && TablesOf(st) == Layout(RowsLayout(items), BandsItems(items), EntriesItems(items, 1), SelectorsItems(items), 0)
  {
    hide Inv; hide ParseStep; hide RowsItems; hide BandsItems; hide EntriesItems; hide SelectorsItems; hide PrintItems;
    var text := PrintItems(items);
    StartInv();
    assert text[0..|text|] == text;
    var r := SimItems(text, START, items);
    ReadyOn(text, START, r);
    var done := PopFrame(r);
    LastPop(text, r);
    Turn(text, r, done);
    ItemsAny(items);
    FirstBelow([], Element(Sequence), RowsItems(items, Base(1, NO_INDEX, 0, 0), 0), START);
  }

  lemma LastPop(text: string, st: ParseState)
    requires AtTop(st) && st.position == |text|
    ensures ParseStep(text, st) == Some(PopFrame(st))
  {
  }

  lemma ItemsAny(items: seq<Item>)
    ensures RowsItems(items, Base(1, NO_INDEX, 0, 0), 0) != [] <==> |items| > 0
  {
    if |items| > 0 { ItemsSome(items, Base(1, NO_INDEX, 0, 0), 0); }
  }
}
