// A layout whose declared backward count nothing checks: two callables, the first of which reads one byte
// while the second only calls itself.
module LayoutUnnoticed {
  import opened Common
  import opened LayoutModel
  import opened LayoutMachine
  import opened LayoutColumns
  import opened LayoutUnique
  import opened LayoutMeasured
  import opened LayoutDrift
  import opened LayoutDeclared
  import opened LayoutParser
  import opened LayoutCompile
  import opened LayoutSyntax
  import opened LayoutRoundTrip
  import opened LayoutInverse

  const ITEMS: seq<Item> := [CallableItem([IntegralNode(PlainMark, 'B')]), CallableItem([CallNode(0)])]

  const ROWS: seq<Element> := [
    Element(Sequence, firstChild := 1),
    Element(Callable, firstChild := 2, nextSibling := 3, callableIndex := 0),
    Element(Integral, bandIndex := 0, outputSize := 1),
    Element(Callable, firstChild := 4, callableIndex := 1),
    Element(Call, callableIndex := 1, targetCallable := 1, backwardCall := true)]

  lemma Printed()
    ensures PrintItems(ITEMS) == "[B][(0)]"
  {
    var first, second := [IntegralNode(PlainMark, 'B')], [CallNode(0)];
    assert PrintSeq(first) == PrintNode(first[0]) + PrintSeq(first[1..]) == "B";
    assert PrintInt(0) == "0";
    assert PrintSeq(second) == PrintNode(second[0]) + PrintSeq(second[1..]) == "(0)";
    assert ITEMS[1..] == [CallableItem(second)];
    assert PrintItems(ITEMS[1..]) == PrintItem(ITEMS[1]) + PrintItems([]);
  }

  /** The text compiles to these tables. */
  lemma Compiled() returns (L: Layout)
    ensures CompileText("[B][(0)]") == Some(L) && L.elements == ROWS && |L.bands| == 1 && |L.callables| == 2
    ensures L.callables[0].elementIndex == 1 && L.callables[1].elementIndex == 3
  {
    hide RowsLayout; hide BandsItems; hide EntriesItems; hide CallsLand; hide ValidItems; hide CompileText; hide PrintItems;
    hide SelectorsItems; hide ITEMS;
    Printed();
    Tables();
    PrintedCompiles(ITEMS);
    L := CompileText("[B][(0)]").value;
    SettledRows();
  }

  lemma SettledRows()
    ensures SettledAll(ROWS[4 := Element(Call, callableIndex := 1)]) == ROWS
  {
  }

  lemma Tables()
    ensures ValidItems(ITEMS) && CallsLand(ITEMS, 0, CountCallables(ITEMS)) && CallableLeads(ITEMS) && CountCallables(ITEMS) == 2
    ensures RowsLayout(ITEMS) == ROWS[4 := Element(Call, callableIndex := 1)]
    ensures |BandsItems(ITEMS)| == 1
    ensures |EntriesItems(ITEMS, 1)| == 2 && EntriesItems(ITEMS, 1)[0].elementIndex == 1 && EntriesItems(ITEMS, 1)[1].elementIndex == 3
  {
    hide RowsLayout; hide BandsItems; hide EntriesItems;
    ItemsAre();
    RowsAre();
    EntriesAre();
    BandsAre();
    assert SizeSeq([CallNode(0)][1..]) == 0;
  }

  lemma ItemsAre()
    ensures ITEMS[1..] == [ITEMS[1]] && ITEMS[1..][1..] == [] && |ITEMS| == 2
    ensures ITEMS[0] == CallableItem([IntegralNode(PlainMark, 'B')]) && ITEMS[1] == CallableItem([CallNode(0)])
  {
  }

  lemma OneNode(n: Node, at: Base)
    requires n.IntegralNode? || n.CallNode?
    ensures SizeSeq([n]) == 1 && RowsSeq([n], at) == [HeadRow(n, at, NO_INDEX)]
    ensures BandsSeq([n]) == BandsNode(n) && SelectorsSeq([n]) == []
  {
    assert [n][1..] == [];
    assert SelectorsNode(n) == [];
  }

  lemma RowsAre()
    ensures RowsLayout(ITEMS) == ROWS[4 := Element(Call, callableIndex := 1)]
  {
    hide RowsSeq; hide SizeSeq; hide BandsSeq; hide SelectorsSeq;
    ItemsAre();
    var first, second := IntegralNode(PlainMark, 'B'), CallNode(0);
    OneNode(first, Base(2, 0, 0, 0));
    OneNode(second, Base(4, 1, 1, 0));
    var at := Base(3, NO_INDEX, 1, 0);
    assert AfterItem(Base(1, NO_INDEX, 0, 0), ITEMS[0]) == at;
    assert RowsItems([], AfterItem(at, ITEMS[1]), 2) == [];
    assert RowsItems(ITEMS[1..], at, 1) == RowsItem(ITEMS[1], at, 1, NO_INDEX);
    assert RowsItems(ITEMS, Base(1, NO_INDEX, 0, 0), 0) == RowsItem(ITEMS[0], Base(1, NO_INDEX, 0, 0), 0, 3) + RowsItems(ITEMS[1..], at, 1);
  }

  lemma EntriesAre()
    ensures |EntriesItems(ITEMS, 1)| == 2 && EntriesItems(ITEMS, 1)[0].elementIndex == 1 && EntriesItems(ITEMS, 1)[1].elementIndex == 3
  {
    hide SizeSeq;
    ItemsAre();
    OneNode(IntegralNode(PlainMark, 'B'), Base(2, 0, 0, 0));
    assert EntriesItems([], 3 + SizeItem(ITEMS[1])) == [];
    assert EntriesItems(ITEMS[1..], 3) == [CallableEntry(3, false)];
  }

  lemma BandsAre()
    ensures |BandsItems(ITEMS)| == 1
  {
    hide BandsSeq;
    ItemsAre();
    OneNode(IntegralNode(PlainMark, 'B'), Base(2, 0, 0, 0));
    OneNode(CallNode(0), Base(4, 1, 1, 0));
    assert BandsItems(ITEMS[1..][1..]) == [];
  }

  const VALUES: seq<seq<int>> := [[7]]

  /** The rows, as far as the run and the columns ask. */
  predicate Shaped(L: Layout, s: Shape) {
    && L.elements == ROWS && |L.bands| == 1 && |L.callables| == 2
    && L.callables[0].elementIndex == 1 && L.callables[1].elementIndex == 3
    && |s.parent| == 5 && s.parent[1] == 0 && s.parent[2] == 1 && s.parent[3] == 0 && s.parent[4] == 3
    && |s.owner| == 1 && s.owner[0] == 2
  }

  lemma ShapeIs(L: Layout, s: Shape)
    requires WellFormed(L, s) && L.elements == ROWS && |L.bands| == 1 && |L.callables| == 2
    requires L.callables[0].elementIndex == 1 && L.callables[1].elementIndex == 3
    ensures Shaped(L, s)
  {
    hide PairOk;
    assert RowOk(L, s, 0) && RowOk(L, s, 1) && RowOk(L, s, 2) && RowOk(L, s, 3) && RowOk(L, s, 4);
  }

  /** The machine while the first callable is executed. */
  function At(frames: seq<Frame>, cursor: nat, visits: seq<nat>, bytes: seq<byte>): Machine {
    Machine(frames, [cursor], visits, bytes, [])
  }

  lemma StartsAt(L: Layout)
    requires Indexed(L) && L.elements == ROWS && |L.bands| == 1 && |L.callables| == 2 && L.callables[0].elementIndex == 1
    ensures Start(L, Fresh(L)) == At([Frame(2, 2, 1)], 0, [0, 1, 0, 0, 0], [])
  {
    assert Fresh(L).visits == [0, 0, 0, 0, 0] && Fresh(L).cursor == [0];
  }

  lemma ReadsByte(L: Layout)
    requires Indexed(L) && L.elements == ROWS && |L.bands| == 1
    ensures var m := At([Frame(2, 2, 1)], 0, [0, 1, 0, 0, 0], []);
      MachineOk(L, m) && Step(L, VALUES, m) == Running(At([Frame(NO_INDEX, 2, 1)], 1, [0, 1, 1, 0, 0], BigEndian(7, 1)))
  {
    hide BigEndian;
    assert [] + BigEndian(7, 1) == BigEndian(7, 1);
  }

  lemma Finishes(L: Layout, bytes: seq<byte>)
    requires Indexed(L) && L.elements == ROWS && |L.bands| == 1
    ensures var m := At([Frame(NO_INDEX, 2, 1)], 1, [0, 1, 1, 0, 0], bytes);
      MachineOk(L, m) && Step(L, VALUES, m) == Running(At([], 1, [0, 1, 1, 0, 0], bytes))
  {
  }

  lemma RunTurns(L: Layout, m: Machine, next: Machine, fuel: nat)
    requires Indexed(L) && MachineOk(L, m) && m.frames != [] && |L.bands| == 1 && fuel > 0
    requires Step(L, VALUES, m) == Running(next)
    ensures MachineOk(L, next) && Run(L, VALUES, m, fuel) == Run(L, VALUES, next, fuel - 1)
  {
    hide Step; hide MachineOk; hide Indexed;
  }

  /** One occurrence reads the byte and is done. */
  lemma RunIs(L: Layout, s: Shape, limit: nat)
    requires WellFormed(L, s) && Shaped(L, s) && limit >= 2
    ensures var r := Occurrences(L, VALUES, 1, limit);
      r.Done? && r.m.cursor == [1] && r.m.visits == [0, 1, 1, 0, 0]
  {
    hide WellFormed; hide Step; hide Indexed; hide Start; hide Fresh; hide BigEndian; hide ROWS;
    IndexedOf(L, s);
    StartsAt(L);
    ReadsByte(L);
    Finishes(L, BigEndian(7, 1));
    var m0 := At([Frame(2, 2, 1)], 0, [0, 1, 0, 0, 0], []);
    var m1 := At([Frame(NO_INDEX, 2, 1)], 1, [0, 1, 1, 0, 0], BigEndian(7, 1));
    RunTurns(L, m0, m1, limit);
    RunTurns(L, m1, At([], 1, [0, 1, 1, 0, 0], BigEndian(7, 1)), limit - 1);
    assert Occurrences(L, VALUES, 0, limit) == Done(Fresh(L));
  }

  lemma IndexedOf(L: Layout, s: Shape)
    requires WellFormed(L, s)
    ensures Indexed(L)
  {
  }

  /** Whatever is declared for the second callable, the columns are balanced. */
  lemma ColumnsAre(L: Layout, s: Shape, k: nat)
    requires WellFormed(L, s) && Shaped(L, s) && k <= SIZE_MAX
    ensures Columned(L, s, 1, [0, k], [7], VALUES, [0, 1, 1, k, k])
  {
    hide PairOk; hide RowOk;
    var demand: seq<nat> := [0, 1, 1, k, k];
    assert CallableOk(L, 0) && CallableOk(L, 1);
    forall c: nat | c < 2
      ensures ForwardSum(L, demand, c, 5) == 0
    {
      assert ForwardSum(L, demand, c, 0) == 0;
      assert ForwardSum(L, demand, c, 3) == ForwardSum(L, demand, c, 2) == ForwardSum(L, demand, c, 1) == 0;
      assert ForwardSum(L, demand, c, 4) == ForwardSum(L, demand, c, 3);
    }
    forall e: nat | 1 <= e < 5
      ensures RowBalancedWith(L, s, 1, [0, k], VALUES, demand, e)
    {
      assert RowOk(L, s, e) && RowIndexed(L, e);
    }
    assert Laid(VALUES, 1) == Laid(VALUES, 0) + [7] == [7];
  }

  /** No call of the second callable is ever made, and no forward call leads from it to a value. */
  lemma NotWatched(L: Layout, s: Shape)
    requires WellFormed(L, s) && Shaped(L, s)
    ensures L.callables[1].hasBackwardCall && !Watched(L, s, 1)
    ensures Made(L, [0, 1, 1, 0, 0], 1) == 0
  {
    hide PairOk; hide RowOk;
    assert FlagOk(L, 1) && BackwardTo(L, 4, 1);
    NothingVisited(L, 5);
  }

  lemma {:induction false} NothingVisited(L: Layout, n: nat)
    requires L.elements == ROWS && n <= 5
    ensures BackwardSum(L, [0, 1, 1, 0, 0], 1, n) == 0
  {
    if n > 0 { NothingVisited(L, n - 1); }
  }

  /**
   * One occurrence of the layout [B][(0)] with the value 7: any number of backward calls may be declared, and
   * the bands are read, measured and used up although no backward call is made.
   */
  lemma AnythingGoes(k: nat, limit: nat) returns (L: Layout, s: Shape)
    requires k <= SIZE_MAX && limit >= 2
    ensures CompileText("[B][(0)]") == Some(L) && WellFormed(L, s) && |L.bands| == |VALUES|
    ensures Columned(L, s, 1, [0, k], [7], VALUES, [0, 1, 1, k, k])
    ensures Passes(L, s, 1, [0, k], VALUES, limit)
    ensures |L.callables| == 2 && L.callables[1].hasBackwardCall && !Watched(L, s, 1)
    ensures var visits := Occurrences(L, VALUES, 1, limit).m.visits;
      |visits| == |L.elements| && Made(L, visits, 1) == 0
  {
    hide PairOk; hide RowOk; hide CompileText; hide Occurrences; hide Watched; hide ROWS;
    L := Compiled();
    CompiledWellFormed("[B][(0)]");
    s :| WellFormed(L, s);
    ShapeIs(L, s);
    RunIs(L, s, limit);
    ColumnsAre(L, s, k);
    NotWatched(L, s);
    FirstUnflagged(L, s);
  }

  lemma FirstUnflagged(L: Layout, s: Shape)
    requires WellFormed(L, s) && Shaped(L, s)
    ensures !L.callables[0].hasBackwardCall
  {
    hide PairOk; hide RowOk;
    assert FlagOk(L, 0);
  }
}
