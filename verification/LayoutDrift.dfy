// The declared numbers of backward calls, and which of them the code accepts: declared counts reach the
// measuring pass only through the bands they lengthen, so callables can be demanded more or less often than
// they are entered.
module LayoutDrift {
  import opened Common
  import opened LayoutModel
  import opened LayoutMachine
  import opened LayoutFlow
  import opened LayoutTheorem
  import opened LayoutColumns
  import opened LayoutMeasured

  /** The backward calls among the first n rows that were made into callable c. */
  function BackwardSum(L: Layout, visits: seq<nat>, c: nat, n: nat): nat
    requires |visits| == |L.elements| && n <= |L.elements|
  {
    if n == 0 then 0 else
    BackwardSum(L, visits, c, n - 1) + if BackwardTo(L, n - 1, c) then visits[n - 1] else 0
  }

  /** How often callable c was called backward. */
  function Made(L: Layout, visits: seq<nat>, c: nat): nat
    requires |visits| == |L.elements|
  {
    BackwardSum(L, visits, c, |L.elements|)
  }

  lemma {:induction false} CallsSplit(L: Layout, visits: seq<nat>, c: nat, n: nat)
    requires |visits| == |L.elements| && n <= |L.elements|
    ensures CallSum(L, visits, c, n) == ForwardSum(L, visits, c, n) + BackwardSum(L, visits, c, n)
  {
    if n > 0 { CallsSplit(L, visits, c, n - 1); }
  }

  /** Counts are declared only for callables that a backward call enters. */
  predicate OnlyFlagged(L: Layout, declared: seq<nat>) {
    |declared| == |L.callables| && forall c: nat :: c < |declared| && !L.callables[c].hasBackwardCall ==> declared[c] == 0
  }

  /** The columns of these values are balanced for these declared counts. */
  ghost predicate Accepts(L: Layout, s: Shape, n: nat, declared: seq<nat>, values: seq<seq<int>>)
    requires WellFormed(L, s)
  {
    exists demand :: ColumnBalanced(L, s, n, declared, values, demand)
  }

  //
  // Drift
  //

  /** The row of callable c. */
  function RowOf(L: Layout, c: nat): nat
    requires c < |L.callables|
  {
    L.callables[c].elementIndex
  }

  predicate ReadsIn(L: Layout, s: Shape, e: nat, parent: nat) {
    1 <= e < |L.elements| && e < |s.parent| && s.parent[e] == parent && HasBand(L.elements[e])
  }

  /** The body of callable c reads a value itself. */
  ghost predicate Reads(L: Layout, s: Shape, c: nat)
    requires c < |L.callables|
  {
    exists e: nat :: ReadsIn(L, s, e, RowOf(L, c))
  }

  /** Row y stands directly in the body of callable c and calls callable d forward. */
  predicate DirectCall(L: Layout, s: Shape, y: nat, c: nat, d: nat) {
    && 1 <= y < |L.elements| && y < |s.parent| && s.parent[y] < |L.elements|
    && L.elements[y].kind == Call && !L.elements[y].backwardCall && L.elements[y].targetCallable == d
    && L.elements[s.parent[y]].kind == Callable && L.elements[s.parent[y]].callableIndex == c
  }

  /** By how much row e is demanded more often than visited, when callable c is by drift[c]. */
  function RowDrift(L: Layout, s: Shape, drift: seq<int>, e: nat): int {
    if e >= |L.elements| || e >= |s.parent| then 0
    else if L.elements[e].kind == Callable then
      if L.elements[e].callableIndex < |drift| then drift[L.elements[e].callableIndex] else 0
    else if e >= 1 && s.parent[e] < |L.elements| && L.elements[s.parent[e]].kind == Callable
         && L.elements[s.parent[e]].callableIndex < |drift| then drift[L.elements[s.parent[e]].callableIndex]
    else 0
  }

  /** What the forward calls to d among the first n rows pass on. */
  function DriftSum(L: Layout, s: Shape, drift: seq<int>, d: nat, n: nat): int
    requires n <= |L.elements|
  {
    if n == 0 then 0 else
    DriftSum(L, s, drift, d, n - 1) +
      if L.elements[n - 1].kind == Call && !L.elements[n - 1].backwardCall && L.elements[n - 1].targetCallable == d
      then RowDrift(L, s, drift, n - 1) else 0
  }

  function DriftInto(L: Layout, s: Shape, drift: seq<int>, d: nat): int {
    DriftSum(L, s, drift, d, |L.elements|)
  }

  /** Callable d is demanded drift[d] more often than it is entered, and no band notices. */
  ghost predicate DriftsAt(L: Layout, s: Shape, visits: seq<nat>, declared: seq<nat>, drift: seq<int>, d: nat)
    requires |visits| == |L.elements| && |declared| == |drift| == |L.callables| && d < |L.callables|
  {
    && drift[d] == declared[d] - Made(L, visits, d) + DriftInto(L, s, drift, d)
    && (Reads(L, s, d) ==> drift[d] == 0)
    && RowOf(L, d) < |visits| && visits[RowOf(L, d)] + drift[d] >= 0
  }

  ghost predicate Drifts(L: Layout, s: Shape, visits: seq<nat>, declared: seq<nat>, drift: seq<int>) {
    && |visits| == |L.elements| && |declared| == |drift| == |L.callables|
    && forall d: nat :: d < |L.callables| ==> DriftsAt(L, s, visits, declared, drift, d)
  }

  /** Demand and visits of row e differ by the row's drift. */
  predicate OffBy(L: Layout, s: Shape, visits: seq<nat>, demand: seq<nat>, drift: seq<int>, e: nat)
    requires |visits| == |demand| == |L.elements| && e < |L.elements|
  {
    demand[e] == visits[e] + RowDrift(L, s, drift, e)
  }

  lemma {:induction false} ForwardDrifts(L: Layout, s: Shape, visits: seq<nat>, demand: seq<nat>, drift: seq<int>, d: nat, n: nat)
    requires |visits| == |demand| == |L.elements| && n <= |L.elements|
    requires forall e: nat :: e < n && L.elements[e].kind == Call ==> OffBy(L, s, visits, demand, drift, e)
    ensures ForwardSum(L, demand, d, n) == ForwardSum(L, visits, d, n) + DriftSum(L, s, drift, d, n)
  {
    hide RowDrift;
    if n > 0 {
      ForwardDrifts(L, s, visits, demand, drift, d, n - 1);
      assert L.elements[n - 1].kind == Call ==> OffBy(L, s, visits, demand, drift, n - 1);
    }
  }

  /** The flow into a row that is no callable drifts exactly when it stands directly in a callable that drifts. */
  lemma BodyDrifts(L: Layout, s: Shape, n: nat, values: seq<seq<int>>, visits: seq<nat>, demand: seq<nat>, drift: seq<int>, e: nat)
    requires WellFormed(L, s) && 1 <= e < |L.elements| && L.elements[e].kind != Callable
    requires |visits| == |demand| == |L.elements| && |values| == |L.bands| && |drift| == |L.callables|
    requires s.parent[e] < |L.elements|
    requires OffBy(L, s, visits, demand, drift, s.parent[e]) || L.elements[s.parent[e]].kind == Sequence
             || L.elements[s.parent[e]].kind == Replication || L.elements[s.parent[e]].kind == Union
    ensures BodyFlow(L, s, n, values, demand, e) == BodyFlow(L, s, n, values, visits, e) + RowDrift(L, s, drift, e)
  {
    hide PairOk; hide CountPicks; hide Sum;
    assert RowOk(L, s, e) && RowOk(L, s, s.parent[e]);
    var p := s.parent[e];
    if L.elements[p].kind == UnionCase { assert RowOk(L, s, s.parent[p]); }
  }

  //
  // From columns to drift
  //

  /** The columns and the visits settle the same bands. */
  ghost predicate Both(L: Layout, s: Shape, n: nat, declared: seq<nat>, values: seq<seq<int>>, visits: seq<nat>, demand: seq<nat>)
    requires WellFormed(L, s)
  {
    Balanced(L, s, n, values, visits) && ColumnBalanced(L, s, n, declared, values, demand)
  }

  /** Every banded row was visited as often as the columns counted. */
  lemma BandedAgree(L: Layout, s: Shape, n: nat, declared: seq<nat>, values: seq<seq<int>>, visits: seq<nat>, demand: seq<nat>, e: nat)
    requires WellFormed(L, s) && Both(L, s, n, declared, values, visits, demand)
    requires 1 <= e < |L.elements| && HasBand(L.elements[e])
    ensures L.elements[e].bandIndex < |values| && visits[e] == demand[e] == |values[L.elements[e].bandIndex]|
  {
    hide RowBalanced; hide RowBalancedWith; hide PairOk;
    assert RowOk(L, s, e);
    var b := L.elements[e].bandIndex;
    assert BandBalanced(L, s, values, visits, b) && BandBalanced(L, s, values, demand, b);
  }

  /** How far the demand on each callable is off. */
  function DriftOf(L: Layout, visits: seq<nat>, demand: seq<nat>): (drift: seq<int>)
    requires |visits| == |demand| == |L.elements|
    requires forall c: nat :: c < |L.callables| ==> RowOf(L, c) < |L.elements|
    ensures |drift| == |L.callables|
  {
    seq(|L.callables|, c requires 0 <= c < |L.callables| => demand[RowOf(L, c)] as int - visits[RowOf(L, c)])
  }

  lemma CallableRows(L: Layout, s: Shape)
    requires WellFormed(L, s)
    ensures forall c: nat :: c < |L.callables| ==> 1 <= RowOf(L, c) < |L.elements|
    ensures forall c: nat :: c < |L.callables| ==>
      L.elements[RowOf(L, c)].kind == Callable && L.elements[RowOf(L, c)].callableIndex == c
  {
    hide PairOk;
    forall c: nat | c < |L.callables|
      ensures 1 <= RowOf(L, c) < |L.elements| && L.elements[RowOf(L, c)].kind == Callable && L.elements[RowOf(L, c)].callableIndex == c
    {
      assert CallableOk(L, c) && RowOk(L, s, RowOf(L, c));
    }
  }

  lemma {:induction false} RowsDrift(L: Layout, s: Shape, n: nat, declared: seq<nat>, values: seq<seq<int>>,
                                     visits: seq<nat>, demand: seq<nat>, e: nat)
    requires WellFormed(L, s) && Both(L, s, n, declared, values, visits, demand) && 1 <= e < |L.elements|
    requires forall c: nat :: c < |L.callables| ==> RowOf(L, c) < |L.elements|
    ensures OffBy(L, s, visits, demand, DriftOf(L, visits, demand), e)
    decreases e
  {
    hide BandBalanced; hide PairOk; hide BodyFlow;
    assert RowOk(L, s, e);
    if L.elements[e].kind != Callable {
      var p := s.parent[e];
      assert RowOk(L, s, p);
      if L.elements[p].kind == Callable || L.elements[p].kind == UnionCase {
        RowsDrift(L, s, n, declared, values, visits, demand, p);
      }
      BodyDrifts(L, s, n, values, visits, demand, DriftOf(L, visits, demand), e);
      assert RowBalanced(L, s, n, values, visits, e) && RowBalancedWith(L, s, n, declared, values, demand, e);
    }
  }

  lemma ColumnsDrift(L: Layout, s: Shape, n: nat, declared: seq<nat>, values: seq<seq<int>>, visits: seq<nat>, demand: seq<nat>)
    requires WellFormed(L, s) && Both(L, s, n, declared, values, visits, demand)
    ensures forall c: nat :: c < |L.callables| ==> RowOf(L, c) < |L.elements|
    ensures Drifts(L, s, visits, declared, DriftOf(L, visits, demand))
  {
    hide BandBalanced; hide PairOk; hide BodyFlow; hide RowOk;
    CallableRows(L, s);
    var drift := DriftOf(L, visits, demand);
    forall d: nat | d < |L.callables|
      ensures DriftsAt(L, s, visits, declared, drift, d)
    {
      CallableDrifts(L, s, n, declared, values, visits, demand, d);
    }
  }

  lemma CallableDrifts(L: Layout, s: Shape, n: nat, declared: seq<nat>, values: seq<seq<int>>, visits: seq<nat>, demand: seq<nat>, d: nat)
    requires WellFormed(L, s) && Both(L, s, n, declared, values, visits, demand) && d < |L.callables|
    requires forall c: nat :: c < |L.callables| ==> RowOf(L, c) < |L.elements|
    ensures DriftsAt(L, s, visits, declared, DriftOf(L, visits, demand), d)
  {
    hide BandBalanced; hide PairOk; hide BodyFlow; hide RowOk; hide RowDrift; hide OffBy; hide HasBand;
    CallableRows(L, s);
    RootIsSequence(L, s);
    var drift := DriftOf(L, visits, demand);
    var i := RowOf(L, d);
    forall e: nat | e < |L.elements| && L.elements[e].kind == Call
      ensures OffBy(L, s, visits, demand, drift, e)
    {
      RowsDrift(L, s, n, declared, values, visits, demand, e);
    }
    ForwardDrifts(L, s, visits, demand, drift, d, |L.elements|);
    CallsSplit(L, visits, d, |L.elements|);
    assert RowBalanced(L, s, n, values, visits, i) && RowBalancedWith(L, s, n, declared, values, demand, i);
    if Reads(L, s, d) {
      var e: nat :| ReadsIn(L, s, e, i);
      ReadsAsParent(L, s, n, declared, values, visits, demand, e);
    }
  }

  lemma RootIsSequence(L: Layout, s: Shape)
    requires WellFormed(L, s) && |L.elements| > 0
    ensures L.elements[0].kind == Sequence
  {
    hide PairOk;
    assert RowOk(L, s, 0);
  }

  /** A banded row directly in the body of a callable is entered as often as the callable, by either count. */
  lemma ReadsAsParent(L: Layout, s: Shape, n: nat, declared: seq<nat>, values: seq<seq<int>>, visits: seq<nat>, demand: seq<nat>, e: nat)
    requires WellFormed(L, s) && Both(L, s, n, declared, values, visits, demand)
    requires 1 <= e < |L.elements| && HasBand(L.elements[e]) && s.parent[e] < |L.elements| && L.elements[s.parent[e]].kind == Callable
    ensures visits[s.parent[e]] == demand[s.parent[e]]
  {
    hide BandBalanced; hide PairOk;
    assert RowOk(L, s, e) && RowIndexed(L, s.parent[e]);
    BandedAgree(L, s, n, declared, values, visits, demand, e);
    assert RowBalanced(L, s, n, values, visits, e) && RowBalancedWith(L, s, n, declared, values, demand, e);
  }

  //
  // From drift to columns
  //

  lemma DemandNotNegative(L: Layout, s: Shape, n: nat, values: seq<seq<int>>, visits: seq<nat>, declared: seq<nat>,
                          drift: seq<int>, e: nat)
    requires WellFormed(L, s) && Balanced(L, s, n, values, visits) && Drifts(L, s, visits, declared, drift) && e < |L.elements|
    ensures visits[e] + RowDrift(L, s, drift, e) >= 0
  {
    hide BandBalanced; hide PairOk; hide Reads; hide Made; hide DriftInto;
    assert RowOk(L, s, e);
    if L.elements[e].kind == Callable {
      assert DriftsAt(L, s, visits, declared, drift, L.elements[e].callableIndex);
    } else if e > 0 && L.elements[s.parent[e]].kind == Callable {
      var p := s.parent[e];
      assert RowOk(L, s, p) && RowIndexed(L, p);
      assert DriftsAt(L, s, visits, declared, drift, L.elements[p].callableIndex);
      assert RowBalanced(L, s, n, values, visits, e);
    }
  }

  ghost function DemandRow(L: Layout, s: Shape, n: nat, values: seq<seq<int>>, visits: seq<nat>, declared: seq<nat>,
                           drift: seq<int>, e: nat): (r: nat)
    requires WellFormed(L, s) && Balanced(L, s, n, values, visits) && Drifts(L, s, visits, declared, drift) && e < |L.elements|
    ensures r == visits[e] + RowDrift(L, s, drift, e)
  {
    hide WellFormed; hide Drifts; hide RowDrift; hide BandBalanced; hide RowBalanced;
    DemandNotNegative(L, s, n, values, visits, declared, drift, e);
    visits[e] + RowDrift(L, s, drift, e)
  }

  /** The demand that drifts off the visits. */
  ghost function DemandOf(L: Layout, s: Shape, n: nat, values: seq<seq<int>>, visits: seq<nat>, declared: seq<nat>,
                          drift: seq<int>): (demand: seq<nat>)
    requires WellFormed(L, s) && Balanced(L, s, n, values, visits) && Drifts(L, s, visits, declared, drift)
    ensures |demand| == |L.elements|
    ensures forall e: nat :: e < |L.elements| ==> OffBy(L, s, visits, demand, drift, e)
  {
    hide WellFormed; hide Drifts; hide RowDrift; hide BandBalanced; hide RowBalanced;
    seq(|L.elements|, e requires 0 <= e < |L.elements| => DemandRow(L, s, n, values, visits, declared, drift, e))
  }

  /** No banded row drifts. */
  lemma BandsStay(L: Layout, s: Shape, visits: seq<nat>, declared: seq<nat>, drift: seq<int>, e: nat)
    requires WellFormed(L, s) && Drifts(L, s, visits, declared, drift) && 1 <= e < |L.elements| && HasBand(L.elements[e])
    ensures RowDrift(L, s, drift, e) == 0
  {
    hide PairOk; hide Made; hide DriftInto;
    assert RowOk(L, s, e) && RowIndexed(L, s.parent[e]);
    var p := s.parent[e];
    if L.elements[p].kind == Callable {
      assert RowOk(L, s, p);
      var c := L.elements[p].callableIndex;
      assert ReadsIn(L, s, e, RowOf(L, c));
      assert DriftsAt(L, s, visits, declared, drift, c);
    }
  }

  lemma DriftColumns(L: Layout, s: Shape, n: nat, values: seq<seq<int>>, visits: seq<nat>, declared: seq<nat>, drift: seq<int>)
    requires WellFormed(L, s) && Balanced(L, s, n, values, visits) && Drifts(L, s, visits, declared, drift)
    ensures ColumnBalanced(L, s, n, declared, values, DemandOf(L, s, n, values, visits, declared, drift))
  {
    hide PairOk; hide RowOk; hide DemandOf; hide RowDrift; hide DriftsAt; hide Drifts; hide BodyFlow;
    var demand := DemandOf(L, s, n, values, visits, declared, drift);
    DriftSizes(L, s, visits, declared, drift);
    forall b: nat | b < |L.bands|
      ensures BandBalanced(L, s, values, demand, b)
    {
      assert BandOk(L, s, b) && BandBalanced(L, s, values, visits, b);
      RootIsSequence(L, s);
      BandsStay(L, s, visits, declared, drift, s.owner[b]);
      assert OffBy(L, s, visits, demand, drift, s.owner[b]);
    }
    forall e: nat | 1 <= e < |L.elements|
      ensures RowBalancedWith(L, s, n, declared, values, demand, e)
    {
      RowFollows(L, s, n, values, visits, declared, drift, demand, e);
    }
  }

  lemma DriftSizes(L: Layout, s: Shape, visits: seq<nat>, declared: seq<nat>, drift: seq<int>)
    requires Drifts(L, s, visits, declared, drift)
    ensures |visits| == |L.elements| && |declared| == |drift| == |L.callables|
  {
  }

  lemma RowFollows(L: Layout, s: Shape, n: nat, values: seq<seq<int>>, visits: seq<nat>, declared: seq<nat>, drift: seq<int>,
                   demand: seq<nat>, e: nat)
    requires WellFormed(L, s) && Balanced(L, s, n, values, visits) && Drifts(L, s, visits, declared, drift)
    requires |demand| == |L.elements| && forall y: nat :: y < |L.elements| ==> OffBy(L, s, visits, demand, drift, y)
    requires 1 <= e < |L.elements|
    ensures RowBalancedWith(L, s, n, declared, values, demand, e)
  {
    hide PairOk; hide BandBalanced; hide Reads; hide BodyFlow; hide OffBy;
    assert RowOk(L, s, e) && RowIndexed(L, e);
    assert RowBalanced(L, s, n, values, visits, e) && OffBy(L, s, visits, demand, drift, e);
    if L.elements[e].kind == Callable {
      var d := L.elements[e].callableIndex;
      ForwardDrifts(L, s, visits, demand, drift, d, |L.elements|);
      CallsSplit(L, visits, d, |L.elements|);
      assert DriftsAt(L, s, visits, declared, drift, d);
      DriftIs(L, s, visits, demand, drift, e);
    } else {
      assert OffBy(L, s, visits, demand, drift, s.parent[e]);
      BodyDrifts(L, s, n, values, visits, demand, drift, e);
      OffIs(L, s, visits, demand, drift, e);
    }
  }

  lemma OffIs(L: Layout, s: Shape, visits: seq<nat>, demand: seq<nat>, drift: seq<int>, e: nat)
    requires |visits| == |demand| == |L.elements| && e < |L.elements| && OffBy(L, s, visits, demand, drift, e)
    ensures demand[e] == visits[e] + RowDrift(L, s, drift, e)
  {
  }

  lemma DriftIs(L: Layout, s: Shape, visits: seq<nat>, demand: seq<nat>, drift: seq<int>, e: nat)
    requires |visits| == |demand| == |L.elements| == |s.parent| && e < |L.elements| && OffBy(L, s, visits, demand, drift, e)
    requires L.elements[e].kind == Callable && L.elements[e].callableIndex < |drift|
    ensures demand[e] == visits[e] + drift[L.elements[e].callableIndex]
  {
  }

  /**
   * For bands that measuring uses up, the columns are balanced for exactly the declared counts that the calls
   * made plus a drift explain: each callable passes its drift on along its direct forward calls, no callable
   * that reads a value drifts, and none is demanded less than never.
   */
  lemma AcceptedExactly(L: Layout, s: Shape, n: nat, declared: seq<nat>, values: seq<seq<int>>, limit: nat)
    requires WellFormed(L, s) && |values| == |L.bands|
    requires Occurrences(L, values, n, limit).Done? && UsedUp(values, Occurrences(L, values, n, limit).m)
    ensures Accepts(L, s, n, declared, values)
       <==> exists drift :: Drifts(L, s, Occurrences(L, values, n, limit).m.visits, declared, drift)
  {
    hide Occurrences; hide Balanced; hide ColumnBalanced; hide RowOk; hide PairOk; hide Drifts; hide DemandOf; hide DriftOf;
    MeasuredBalances(L, s, values, n, limit);
    var visits := Occurrences(L, values, n, limit).m.visits;
    if demand :| ColumnBalanced(L, s, n, declared, values, demand) {
      ColumnsDrift(L, s, n, declared, values, visits, demand);
    }
    if drift :| Drifts(L, s, visits, declared, drift) {
      DriftColumns(L, s, n, values, visits, declared, drift);
    }
  }
}
