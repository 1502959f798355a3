// Rows against columns: executing as many occurrences as the columns were read for visits every
// element exactly as often as its band holds values.
module LayoutTheorem {
  import opened Common
  import opened LayoutModel
  import opened LayoutMachine
  import opened LayoutFlow

  /** Visits made and pending never exceed what the columns provide. */
  lemma {:induction false} Bounded(L: Layout, s: Shape, values: seq<seq<int>>, occ: nat, occurrences: nat,
                                   full: seq<nat>, m: Machine, e: nat)
    requires WellFormed(L, s) && NoBackwardCall(L) && Balanced(L, s, occurrences, values, full)
    requires Conserved(L, s, values, occ, m) && occ <= occurrences && 1 <= e < |L.elements|
    ensures m.visits[e] + Pending(s, m.frames, e) <= full[e]
    decreases e
  {
    forall i: nat | 1 <= i < e
      ensures m.visits[i] <= full[i]
    {
      Bounded(L, s, values, occ, occurrences, full, m, i);
    }
    assert RowConserved(L, s, values, occ, m, e);
    FlowMonotone(L, s, occ, occurrences, values, m.cursor, m.visits, full, e);
  }

  lemma {:induction false} CallSumEqual(L: Layout, a: seq<nat>, b: seq<nat>, c: nat, n: nat)
    requires |a| == |b| == |L.elements| && n <= |L.elements|
    requires forall i :: 0 <= i < n && L.elements[i].kind == Call && L.elements[i].targetCallable == c ==> a[i] == b[i]
    ensures CallSum(L, a, c, n) == CallSum(L, b, c, n)
  {
    if n > 0 { CallSumEqual(L, a, b, c, n - 1); }
  }

  /** The flow equations have one solution: equal rows before e force an equal row e. */
  lemma FlowExact(L: Layout, s: Shape, values: seq<seq<int>>, occurrences: nat, full: seq<nat>, m: Machine, e: nat)
    requires WellFormed(L, s) && NoBackwardCall(L) && Balanced(L, s, occurrences, values, full)
    requires Conserved(L, s, values, occurrences, m) && m.frames == [] && 1 <= e < |L.elements|
    requires forall i: nat :: 1 <= i < e ==> m.visits[i] == full[i]
    ensures m.visits[e] == full[e]
  {
    var p := s.parent[e];
    assert RowConserved(L, s, values, occurrences, m, e);
    assert RowBalanced(L, s, occurrences, values, full, e);
    assert RowOk(L, s, e) && RowOk(L, s, p);
    if L.elements[e].kind == Callable {
      var c := L.elements[e].callableIndex;
      forall i: nat | i < |L.elements| && L.elements[i].kind == Call && L.elements[i].targetCallable == c
        ensures m.visits[i] == full[i]
      {
        assert RowOk(L, s, i);
      }
      CallSumEqual(L, m.visits, full, c, |L.elements|);
    } else if HasBand(L.elements[p]) {
      var b := L.elements[p].bandIndex;
      assert BandBalanced(L, s, values, full, b);
      assert CursorOk(L, s, values, m, b);
      assert values[b][..m.cursor[b]] == values[b];
      assert Taken(values, m.cursor)[b] == values[b];
    }
  }

  lemma {:induction false} VisitsExact(L: Layout, s: Shape, values: seq<seq<int>>, occurrences: nat,
                                       full: seq<nat>, m: Machine, e: nat)
    requires WellFormed(L, s) && NoBackwardCall(L) && Balanced(L, s, occurrences, values, full)
    requires Conserved(L, s, values, occurrences, m) && m.frames == [] && 1 <= e < |L.elements|
    ensures m.visits[e] == full[e]
    decreases e
  {
    forall i: nat | 1 <= i < e
      ensures m.visits[i] == full[i]
    {
      VisitsExact(L, s, values, occurrences, full, m, i);
    }
    FlowExact(L, s, values, occurrences, full, m, e);
  }

  /** The machine just before an occurrence pushes its first frame. */
  ghost function Opened(L: Layout, m: Machine): Machine
    requires Indexed(L) && MachineOk(L, m)
  {
    assert RowIndexed(L, EntryRow(L));
    Machine([], m.cursor, if |L.callables| != 0 then Bump(m.visits, EntryRow(L)) else m.visits, [], [])
  }

  /** One more occurrence flows into the entry row and, through it, into its children. */
  lemma FlowOccurrence(L: Layout, s: Shape, occ: nat, taken: seq<seq<int>>, m: Machine, x: nat)
    requires WellFormed(L, s) && MachineOk(L, m) && |taken| == |L.bands| && 1 <= x < |L.elements|
    ensures Flow(L, s, occ + 1, taken, Opened(L, m).visits, x)
         == Flow(L, s, occ, taken, m.visits, x)
            + (if s.parent[x] == EntryRow(L) then 1 else 0) + (if |L.callables| != 0 && x == EntryRow(L) then 1 else 0)
  {
    hide CountPicks; hide CallSum; hide Sum;
    assert RowOk(L, s, x) && RowOk(L, s, s.parent[x]);
    if |L.callables| != 0 {
      assert CallableOk(L, 0);
      FlowBump(L, s, occ, taken, m.visits, EntryRow(L), x);
    }
  }

  lemma StartRow(L: Layout, s: Shape, values: seq<seq<int>>, occ: nat, m: Machine, x: nat)
    requires WellFormed(L, s) && |values| == |L.bands| && MachineOk(L, m) && m.frames == []
    requires 1 <= x < |L.elements| && RowConserved(L, s, values, occ, m, x)
    ensures RowConserved(L, s, values, occ + 1, Start(L, m), x)
  {
    hide Flow; hide Taken; hide RowOk;
    var entry := EntryRow(L);
    EntryIterable(L, s);
    PushPays(L, s, Opened(L, m), entry, 1, x);
    FlowOccurrence(L, s, occ, Taken(values, m.cursor), m, x);
  }

  lemma EntryIterable(L: Layout, s: Shape)
    requires WellFormed(L, s)
    ensures EntryRow(L) < |L.elements| && Iterable(L, EntryRow(L))
  {
    assert |L.callables| != 0 ==> CallableOk(L, 0);
    assert RowOk(L, s, EntryRow(L));
  }

  /** Starting an occurrence owes one visit to each row of its body. */
  lemma StartConserves(L: Layout, s: Shape, values: seq<seq<int>>, occ: nat, m: Machine)
    requires WellFormed(L, s) && |values| == |L.bands| && Conserved(L, s, values, occ, m) && m.frames == []
    ensures Conserved(L, s, values, occ + 1, Start(L, m))
  {
    var n := Start(L, m);
    var entry := EntryRow(L);
    EntryIterable(L, s);
    assert |L.callables| != 0 ==> CallableOk(L, 0);
    PushFrames(L, s, Opened(L, m), entry, 1);
    forall b: nat | b < |L.bands|
      ensures CursorOk(L, s, values, n, b)
    {
      assert CursorOk(L, s, values, m, b) && BandOk(L, s, b);
    }
    var occ' := occ + 1;
    forall x: nat | 1 <= x < |L.elements|
      ensures RowConserved(L, s, values, occ', n, x)
    {
      hide Start;
      assert RowConserved(L, s, values, occ, m, x);
      StartRow(L, s, values, occ, m, x);
    }
  }

  lemma {:induction false} CallSumZero(L: Layout, visits: seq<nat>, c: nat, n: nat)
    requires |visits| == |L.elements| && n <= |L.elements| && forall i :: 0 <= i < n ==> visits[i] == 0
    ensures CallSum(L, visits, c, n) == 0
  {
    if n > 0 { CallSumZero(L, visits, c, n - 1); }
  }

  lemma FreshConserves(L: Layout, s: Shape, values: seq<seq<int>>)
    requires WellFormed(L, s) && |values| == |L.bands|
    ensures Conserved(L, s, values, 0, Fresh(L))
  {
    var n := Fresh(L);
    forall b: nat | b < |L.bands|
      ensures CursorOk(L, s, values, n, b)
    {
      assert BandOk(L, s, b);
    }
    forall x: nat | 1 <= x < |L.elements|
      ensures RowConserved(L, s, values, 0, n, x)
    {
      assert RowOk(L, s, x) && RowOk(L, s, s.parent[x]);
      assert forall b :: 0 <= b < |L.bands| ==> Taken(values, n.cursor)[b] == [];
      CallSumZero(L, n.visits, L.elements[x].callableIndex, |L.elements|);
    }
  }

  /** An occurrence of a balanced layout ends normally or at a limit; it never runs short of values. */
  lemma {:induction false} RunSafe(L: Layout, s: Shape, values: seq<seq<int>>, occ: nat, occurrences: nat,
                                   full: seq<nat>, m: Machine, fuel: nat)
    requires WellFormed(L, s) && NoBackwardCall(L) && Balanced(L, s, occurrences, values, full)
    requires Conserved(L, s, values, occ, m) && occ <= occurrences
    ensures !Run(L, values, m, fuel).Failed?
    ensures Run(L, values, m, fuel).Done? ==> Conserved(L, s, values, occ, Run(L, values, m, fuel).m)
    decreases fuel
  {
    if m.frames != [] && fuel != 0 {
      StepConserves(L, s, values, occ, m);
      var r := Step(L, values, m);
      if r.Running? {
        RunSafe(L, s, values, occ, occurrences, full, r.m, fuel - 1);
      } else {
        NotStuck(L, s, values, occ, occurrences, full, m);
      }
    }
  }

  lemma NotStuck(L: Layout, s: Shape, values: seq<seq<int>>, occ: nat, occurrences: nat, full: seq<nat>, m: Machine)
    requires WellFormed(L, s) && NoBackwardCall(L) && Balanced(L, s, occurrences, values, full)
    requires Conserved(L, s, values, occ, m) && occ <= occurrences && m.frames != []
    ensures !Step(L, values, m).Stuck?
  {
    StepConserves(L, s, values, occ, m);
    var top := m.frames[|m.frames| - 1];
    var e := top.next;
    assert FrameWell(L, s, top);
    if e != NO_INDEX {
      assert RowOk(L, s, e);
      if HasBand(L.elements[e]) {
        var b := L.elements[e].bandIndex;
        Bounded(L, s, values, occ, occurrences, full, m, e);
        assert Pending1(s, top, e) >= 1;
        assert BandBalanced(L, s, values, full, b) && CursorOk(L, s, values, m, b);
      }
    }
  }

  /**
   * Main result. When the columns are balanced for N occurrences and no call goes backward,
   * executing N occurrences either hits the step or frame limit or succeeds; on success every
   * band is consumed to its end and every row was visited exactly as often as the columns say.
   */
  lemma {:induction false} RowsMatchColumns(L: Layout, s: Shape, values: seq<seq<int>>, occurrences: nat,
                                            full: seq<nat>, limit: nat)
    requires WellFormed(L, s) && NoBackwardCall(L) && Balanced(L, s, occurrences, values, full)
    ensures !Occurrences(L, values, occurrences, limit).Failed?
    ensures var r := Occurrences(L, values, occurrences, limit);
            r.Done? ==>
              && (forall b: nat :: b < |L.bands| ==> r.m.cursor[b] == |values[b]|)
              && (forall e: nat :: 1 <= e < |L.elements| ==> r.m.visits[e] == full[e])
  {
    PrefixSafe(L, s, values, occurrences, occurrences, full, limit);
    var r := Occurrences(L, values, occurrences, limit);
    if r.Done? {
      forall e: nat | 1 <= e < |L.elements|
        ensures r.m.visits[e] == full[e]
      {
        VisitsExact(L, s, values, occurrences, full, r.m, e);
      }
      forall b: nat | b < |L.bands|
        ensures r.m.cursor[b] == |values[b]|
      {
        assert BandOk(L, s, b) && RowOk(L, s, s.owner[b]);
        assert BandBalanced(L, s, values, full, b) && CursorOk(L, s, values, r.m, b);
      }
    }
  }

  /** The first n of N occurrences of a balanced layout are safe. */
  lemma {:induction false} PrefixSafe(L: Layout, s: Shape, values: seq<seq<int>>, n: nat, occurrences: nat,
                                      full: seq<nat>, limit: nat)
    requires WellFormed(L, s) && NoBackwardCall(L) && Balanced(L, s, occurrences, values, full) && n <= occurrences
    ensures !Occurrences(L, values, n, limit).Failed?
    ensures Occurrences(L, values, n, limit).Done? ==> Conserved(L, s, values, n, Occurrences(L, values, n, limit).m)
  {
    hide Run; hide Start; hide Conserved; hide Fresh; hide BandBalanced; hide RowBalanced; hide RowOk; hide PairOk;
    if n == 0 {
      FreshConserves(L, s, values);
    } else {
      PrefixSafe(L, s, values, n - 1, occurrences, full, limit);
      var r := Occurrences(L, values, n - 1, limit);
      if r.Done? {
        OccurrenceSafe(L, s, values, n - 1, occurrences, full, r.m, limit);
      }
    }
  }

  lemma OccurrenceSafe(L: Layout, s: Shape, values: seq<seq<int>>, occ: nat, occurrences: nat,
                       full: seq<nat>, m: Machine, limit: nat)
    requires WellFormed(L, s) && NoBackwardCall(L) && Balanced(L, s, occurrences, values, full)
    requires Conserved(L, s, values, occ, m) && m.frames == [] && occ < occurrences
    ensures var r := Run(L, values, Start(L, m), limit);
            !r.Failed? && (r.Done? ==> Conserved(L, s, values, occ + 1, r.m))
  {
    hide Run; hide Start; hide RowConserved; hide RowBalanced; hide BandBalanced; hide RowOk; hide PairOk;
    StartConserves(L, s, values, occ, m);
    RunSafe(L, s, values, occ + 1, occurrences, full, Start(L, m), limit);
  }
}
