// A value its field cannot hold: the layout H, a field of two bytes, with the value 65536 in its band.
module LayoutTruncated {
  import opened Common
  import opened LayoutModel
  import opened LayoutMachine
  import opened LayoutParser
  import opened LayoutCompile
  import opened LayoutSyntax
  import opened LayoutRoundTrip
  import opened LayoutInverse
  import R = LayoutReader
  import B = LayoutReadBack

  const NODE: Node := IntegralNode(PlainMark, 'H')
  const ROWS: seq<Element> := [Element(Sequence, firstChild := 1), Element(Integral, bandIndex := 0, outputSize := 2)]
  const VALUES: seq<seq<int>> := [[0x1_0000]]

  lemma Tables()
    ensures PrintItems([NodeItem(NODE)]) == "H" && ValidItems([NodeItem(NODE)])
    ensures CallsLand([NodeItem(NODE)], 0, CountCallables([NodeItem(NODE)])) && CallableLeads([NodeItem(NODE)])
    ensures RowsLayout([NodeItem(NODE)]) == ROWS && |BandsItems([NodeItem(NODE)])| == 1 && CountCallables([NodeItem(NODE)]) == 0
  {
    var items := [NodeItem(NODE)];
    assert items[1..] == [];
    assert [NODE][1..] == [];
    assert BandsSeq([NODE]) == BandsNode(NODE) + BandsSeq([]);
    assert RowsItems([], AfterItem(Base(1, NO_INDEX, 0, 0), items[0]), 0) == [];
    assert CallsLand([], 0, 0);
  }

  lemma Compiled() returns (L: Layout)
    ensures CompileText("H") == Some(L) && L.elements == ROWS && |L.bands| == 1 && |L.callables| == 0
  {
    hide RowsLayout; hide BandsItems; hide EntriesItems; hide CallsLand; hide ValidItems; hide CompileText; hide PrintItems;
    hide CountCallables; hide CallableLeads;
    Tables();
    PrintedCompiles([NodeItem(NODE)]);
    L := CompileText("H").value;
    assert SettledAll(ROWS) == ROWS;
  }

  lemma Starts(L: Layout)
    requires Indexed(L) && L.elements == ROWS && |L.bands| == 1 && |L.callables| == 0
    ensures Start(L, Fresh(L)) == Machine([Frame(1, 1, 1)], [0], [0, 0], [], [])
  {
  }

  /** The machine while the row is executed. */
  function Running(frames: seq<Frame>, cursor: nat, visited: nat, bytes: seq<byte>): Machine {
    Machine(frames, [cursor], [0, visited], bytes, [])
  }

  lemma Turns(L: Layout)
    requires Indexed(L) && L.elements == ROWS && |L.bands| == 1 && |L.callables| == 0
    ensures var m, n := Running([Frame(1, 1, 1)], 0, 0, []), Running([Frame(NO_INDEX, 1, 1)], 1, 1, BigEndian(0x1_0000, 2));
      && MachineOk(L, m) && Step(L, VALUES, m) == StepResult.Running(n)
      && MachineOk(L, n) && Step(L, VALUES, n) == StepResult.Running(Running([], 1, 1, BigEndian(0x1_0000, 2)))
      && B.NextDrawn(L, VALUES, m) == [B.Drawn(1, 0x1_0000)] && B.NextDrawn(L, VALUES, n) == []
  {
    hide BigEndian;
    assert [] + BigEndian(0x1_0000, 2) == BigEndian(0x1_0000, 2);
  }

  /** One occurrence takes 65536 and is done. */
  lemma RunIs(L: Layout, limit: nat)
    requires Indexed(L) && L.elements == ROWS && |L.bands| == 1 && |L.callables| == 0 && limit >= 2
    ensures Occurrences(L, VALUES, 1, limit) == Done(Running([], 1, 1, BigEndian(0x1_0000, 2)))
    ensures B.DrawnBy(L, VALUES, limit, 0) == [B.Drawn(1, 0x1_0000)]
  {
    hide Step; hide Indexed; hide Start; hide Fresh; hide BigEndian; hide ROWS; hide B.NextDrawn;
    Starts(L);
    Turns(L);
    var m, n := Running([Frame(1, 1, 1)], 0, 0, []), Running([Frame(NO_INDEX, 1, 1)], 1, 1, BigEndian(0x1_0000, 2));
    var end := Running([], 1, 1, BigEndian(0x1_0000, 2));
    assert Run(L, VALUES, n, limit - 1) == Run(L, VALUES, end, limit - 2);
    assert Run(L, VALUES, m, limit) == Run(L, VALUES, n, limit - 1);
    assert B.Trace(L, VALUES, n, limit - 1) == [] + B.Trace(L, VALUES, end, limit - 2);
    assert B.Trace(L, VALUES, m, limit) == [B.Drawn(1, 0x1_0000)] + B.Trace(L, VALUES, n, limit - 1);
    assert Occurrences(L, VALUES, 0, limit) == Done(Fresh(L));
  }

  /** The occurrence succeeds, uses its band up and is read back as 0, not as the value it took. */
  lemma HighBytesLost(limit: nat) returns (L: Layout)
    requires limit >= 2
    ensures CompileText("H") == Some(L) && Indexed(L) && |VALUES| == |L.bands| && Occurrences(L, VALUES, 1, limit).Done?
    ensures var m := Occurrences(L, VALUES, 1, limit).m;
      var p := R.Payload(m.bytes, m.relocations, 0);
      && m.cursor == [1]
      && R.ReadsAs(L, p, [R.Field(1, 0)], limit)
      && !R.ReadsAs(L, p, [R.Field(1, 0x1_0000)], limit)
  {
    hide PairOk; hide RowOk; hide CompileText; hide Occurrences; hide B.DrawnBy; hide ROWS; hide R.ReadAttribute; hide BigEndian;
    L := Compiled();
    CompiledWellFormed("H");
    var s :| WellFormed(L, s);
    RunIs(L, limit);
    var m := Occurrences(L, VALUES, 1, limit).m;
    var p := R.Payload(m.bytes, m.relocations, 0);
    B.OccurrenceReads(L, s, VALUES, limit, 0, p, limit);
    ItemIs(L);
  }

  lemma ItemIs(L: Layout)
    requires L.elements == ROWS
    ensures var t := [B.Drawn(1, 0x1_0000)]; B.InTable(L, t) && B.SteersFit(L, t) && B.Items(L, t) == [R.Field(1, 0)]
  {
    Pow2Bytes();
  }
}
