// What a successful measuring pass says about the bands, whether or not the layout calls backward: the
// visits it makes settle every count.
module LayoutMeasured {
  import opened Common
  import opened LayoutModel
  import opened LayoutMachine
  import opened LayoutFlow
  import opened LayoutTheorem

  /** No repeat count given out so far is negative. */
  predicate RepeatsOk(L: Layout, s: Shape, values: seq<seq<int>>, m: Machine, b: nat)
    requires |values| == |m.cursor| == |L.bands| == |s.owner| && b < |L.bands|
  {
    s.owner[b] < |L.elements| && L.elements[s.owner[b]].kind == Replication ==>
      forall k :: 0 <= k < m.cursor[b] && k < |values[b]| ==> values[b][k] >= 0
  }

  /** What every turn keeps. */
  ghost predicate Sound(L: Layout, s: Shape, values: seq<seq<int>>, occ: nat, m: Machine)
    requires WellFormed(L, s) && |values| == |L.bands|
  {
    Conserved(L, s, values, occ, m) && forall b: nat :: b < |L.bands| ==> RepeatsOk(L, s, values, m, b)
  }

  lemma StepRepeats(L: Layout, s: Shape, values: seq<seq<int>>, m: Machine, b: nat)
    requires WellFormed(L, s) && |values| == |L.bands| && MachineOk(L, m) && m.frames != [] && b < |L.bands|
    requires RepeatsOk(L, s, values, m, b) && Step(L, values, m).Running?
    ensures RepeatsOk(L, s, values, Step(L, values, m).m, b)
  {
    hide Select; hide PairOk; hide Write;
    assert FrameOk(L, m.frames[|m.frames| - 1]);
    var e := m.frames[|m.frames| - 1].next;
    if e != NO_INDEX {
      assert RowOk(L, s, e) && BandOk(L, s, b);
      WriteKeepsCursor(L.elements[e], 0, m);
      if HasBand(L.elements[e]) && m.cursor[L.elements[e].bandIndex] < |values[L.elements[e].bandIndex]| {
        var v := values[L.elements[e].bandIndex][m.cursor[L.elements[e].bandIndex]];
        var below, top := m.frames[..|m.frames| - 1], m.frames[|m.frames| - 1];
        var moved := m.(frames := below + [top.(next := L.elements[e].nextSibling)], visits := Bump(m.visits, e));
        WriteKeepsCursor(L.elements[e], v, moved.(cursor := Bump(m.cursor, L.elements[e].bandIndex)));
      }
    }
  }

  lemma WriteKeepsCursor(el: Element, v: int, m: Machine)
    ensures Write(el, v, m).cursor == m.cursor
  {
  }

  lemma SoundTurn(L: Layout, s: Shape, values: seq<seq<int>>, occ: nat, m: Machine)
    requires WellFormed(L, s) && |values| == |L.bands| && Sound(L, s, values, occ, m) && m.frames != []
    ensures Indexed(L) && MachineOk(L, m)
    ensures Step(L, values, m).Running? ==> Sound(L, s, values, occ, Step(L, values, m).m)
  {
    hide Step; hide RepeatsOk; hide CursorOk; hide FrameWell; hide RowConserved; hide RowOk; hide PairOk;
    StepConserves(L, s, values, occ, m);
    if Step(L, values, m).Running? {
      forall b: nat | b < |L.bands|
        ensures RepeatsOk(L, s, values, Step(L, values, m).m, b)
      {
        StepRepeats(L, s, values, m, b);
      }
    }
  }

  lemma {:induction false} RunKeeps(L: Layout, s: Shape, values: seq<seq<int>>, occ: nat, m: Machine, fuel: nat)
    requires WellFormed(L, s) && |values| == |L.bands| && Sound(L, s, values, occ, m)
    requires Indexed(L) && MachineOk(L, m) && Run(L, values, m, fuel).Done?
    ensures Sound(L, s, values, occ, Run(L, values, m, fuel).m)
    decreases fuel
  {
    hide Sound; hide WellFormed; hide Step; hide MachineOk; hide Indexed;
    if m.frames != [] {
      SoundTurn(L, s, values, occ, m);
      RunKeeps(L, s, values, occ, Step(L, values, m).m, fuel - 1);
    }
  }

  lemma StartSound(L: Layout, s: Shape, values: seq<seq<int>>, occ: nat, m: Machine)
    requires WellFormed(L, s) && |values| == |L.bands| && Sound(L, s, values, occ, m) && m.frames == []
    ensures Sound(L, s, values, occ + 1, Start(L, m))
  {
    hide RowConserved; hide FrameWell; hide CursorOk; hide RowOk; hide PairOk;
    StartConserves(L, s, values, occ, m);
    forall b: nat | b < |L.bands|
      ensures RepeatsOk(L, s, values, Start(L, m), b)
    {
      assert RepeatsOk(L, s, values, m, b);
    }
  }

  lemma {:induction false} OccurrencesConserve(L: Layout, s: Shape, values: seq<seq<int>>, n: nat, limit: nat)
    requires WellFormed(L, s) && |values| == |L.bands| && Occurrences(L, values, n, limit).Done?
    ensures Sound(L, s, values, n, Occurrences(L, values, n, limit).m)
  {
    hide Run; hide Start; hide Conserved; hide RowOk; hide PairOk; hide Sound;
    if n == 0 {
      FreshSound(L, s, values);
    } else {
      OccurrencesConserve(L, s, values, n - 1, limit);
      var m := Occurrences(L, values, n - 1, limit).m;
      StartSound(L, s, values, n - 1, m);
      RunKeeps(L, s, values, n, Start(L, m), limit);
    }
  }

  lemma FreshSound(L: Layout, s: Shape, values: seq<seq<int>>)
    requires WellFormed(L, s) && |values| == |L.bands|
    ensures Sound(L, s, values, 0, Fresh(L))
  {
    hide Conserved; hide WellFormed;
    FreshConserves(L, s, values);
    FreshMachine(L, s, values);
  }

  lemma FreshMachine(L: Layout, s: Shape, values: seq<seq<int>>)
    requires WellFormed(L, s) && |values| == |L.bands|
    ensures |s.owner| == |L.bands| && |Fresh(L).cursor| == |L.bands|
    ensures forall b: nat :: b < |L.bands| ==> RepeatsOk(L, s, values, Fresh(L), b)
  {
  }

  /** All values of all bands have been given out. */
  ghost predicate UsedUp(values: seq<seq<int>>, m: Machine) {
    |m.cursor| == |values| && forall b: nat :: b < |values| ==> m.cursor[b] == |values[b]|
  }

  /**
   * Whatever the layout, bands that n occurrences use up exactly are balanced by the visits made: every
   * banded row is visited as often as its band has values, and every row as often as its flow says.
   */
  lemma MeasuredBalances(L: Layout, s: Shape, values: seq<seq<int>>, n: nat, limit: nat)
    requires WellFormed(L, s) && |values| == |L.bands| && Occurrences(L, values, n, limit).Done?
    requires UsedUp(values, Occurrences(L, values, n, limit).m)
    ensures Balanced(L, s, n, values, Occurrences(L, values, n, limit).m.visits)
  {
    hide Run; hide Start; hide Flow; hide RowOk; hide PairOk; hide Occurrences;
    OccurrencesConserve(L, s, values, n, limit);
    var m := Occurrences(L, values, n, limit).m;
    AllTaken(values, m);
    forall b: nat | b < |L.bands|
      ensures BandBalanced(L, s, values, m.visits, b)
    {
      assert CursorOk(L, s, values, m, b) && BandOk(L, s, b) && RepeatsOk(L, s, values, m, b);
    }
    forall e: nat | 1 <= e < |L.elements|
      ensures RowBalanced(L, s, n, values, m.visits, e)
    {
      assert RowConserved(L, s, values, n, m, e);
      NothingPending(s, e);
    }
  }

  lemma AllTaken(values: seq<seq<int>>, m: Machine)
    requires UsedUp(values, m)
    ensures Taken(values, m.cursor) == values
  {
    forall b | 0 <= b < |values|
      ensures Taken(values, m.cursor)[b] == values[b]
    {
      assert values[b][..m.cursor[b]] == values[b];
    }
  }

  lemma NothingPending(s: Shape, e: nat)
    requires e < |s.parent|
    ensures Pending(s, [], e) == 0
  {
  }

  /**
   * Without backward calls and short of the limits, the measuring pass accepts the bands exactly when they
   * are balanced for some visits, which are then the ones it makes.
   */
  lemma MeasuresBalanced(L: Layout, s: Shape, values: seq<seq<int>>, n: nat, limit: nat)
    requires WellFormed(L, s) && NoBackwardCall(L) && |values| == |L.bands| && !Occurrences(L, values, n, limit).LimitHit?
    ensures (Occurrences(L, values, n, limit).Done? && UsedUp(values, Occurrences(L, values, n, limit).m))
       <==> exists visits: seq<nat> :: Balanced(L, s, n, values, visits)
  {
    hide Occurrences; hide Balanced; hide NoBackwardCall; hide RowOk; hide PairOk;
    var r := Occurrences(L, values, n, limit);
    if r.Done? && UsedUp(values, r.m) {
      MeasuredBalances(L, s, values, n, limit);
    }
    if visits: seq<nat> :| Balanced(L, s, n, values, visits) {
      RowsMatchColumns(L, s, values, n, visits, limit);
      DoneMachine(L, values, n, limit);
    }
  }

  lemma DoneMachine(L: Layout, values: seq<seq<int>>, n: nat, limit: nat)
    requires Indexed(L) && |values| == |L.bands|
    ensures Occurrences(L, values, n, limit).Done? ==> |Occurrences(L, values, n, limit).m.cursor| == |L.bands|
  {
    hide Occurrences; hide Indexed;
  }
}
