// When declared numbers of backward calls that are wrong go unnoticed, and in which layouts they never do.
module LayoutDeclared {
  import opened Common
  import opened LayoutModel
  import opened LayoutMachine
  import opened LayoutFlow
  import opened LayoutTheorem
  import opened LayoutColumns
  import opened LayoutMeasured
  import opened LayoutDrift

  //
  // How drift is passed on
  //

  lemma InOrder(L: Layout, s: Shape, c: nat, d: nat)
    requires WellFormed(L, s) && c < |L.callables| && d < |L.callables| && RowOf(L, c) < RowOf(L, d)
    ensures c < d
  {
    hide RowOk; hide PairOk;
  }

  /** Row y calls a callable behind the one it stands in. */
  lemma DirectForward(L: Layout, s: Shape, y: nat, c: nat, d: nat)
    requires WellFormed(L, s) && DirectCall(L, s, y, c, d)
    ensures c < d < |L.callables| && y < |L.elements|
    ensures forall drift: seq<int> :: |drift| == |L.callables| ==> RowDrift(L, s, drift, y) == drift[c]
  {
    hide PairOk;
    assert RowOk(L, s, y) && RowOk(L, s, s.parent[y]) && CallableOk(L, d);
    InOrder(L, s, c, d);
  }

  /** A forward call passes nothing on unless it stands directly in a callable. */
  lemma OtherCall(L: Layout, s: Shape, drift: seq<int>, y: nat, d: nat)
    requires WellFormed(L, s) && |drift| == |L.callables| && y < |L.elements| && L.elements[y].kind == Call
    requires !L.elements[y].backwardCall && L.elements[y].targetCallable == d
    ensures RowDrift(L, s, drift, y) == 0 || exists c: nat :: c < |L.callables| && DirectCall(L, s, y, c, d)
  {
    hide PairOk;
    assert RowOk(L, s, y) && RowIndexed(L, s.parent[y]);
    if L.elements[s.parent[y]].kind == Callable {
      assert RowOk(L, s, s.parent[y]);
      assert DirectCall(L, s, y, L.elements[s.parent[y]].callableIndex, d);
    }
  }

  /** One more row of the sum. */
  lemma DriftNext(L: Layout, s: Shape, drift: seq<int>, d: nat, y: nat, n: nat)
    requires WellFormed(L, s) && |drift| == |L.callables| && n == y + 1 <= |L.elements|
    ensures (exists c: nat :: c < |drift| && DirectCall(L, s, y, c, d)
                              && DriftSum(L, s, drift, d, n) == DriftSum(L, s, drift, d, y) + drift[c])
         || (DriftSum(L, s, drift, d, n) == DriftSum(L, s, drift, d, y)
             && forall c: nat :: c < |drift| ==> !DirectCall(L, s, y, c, d))
  {
    hide RowDrift; hide WellFormed;
    if c: nat :| c < |drift| && DirectCall(L, s, y, c, d) {
      DirectForward(L, s, y, c, d);
    } else if L.elements[y].kind == Call && !L.elements[y].backwardCall && L.elements[y].targetCallable == d {
      OtherCall(L, s, drift, y, d);
    }
  }

  /** Nothing is passed on when no direct caller drifts. */
  lemma {:induction false} SumNothing(L: Layout, s: Shape, drift: seq<int>, d: nat, n: nat)
    requires WellFormed(L, s) && |drift| == |L.callables| && n <= |L.elements|
    requires forall y: nat, c: nat :: y < n && c < |drift| && DirectCall(L, s, y, c, d) ==> drift[c] == 0
    ensures DriftSum(L, s, drift, d, n) == 0
  {
    hide DriftSum; hide WellFormed; hide DirectCall;
    if n == 0 {
      SumStarts(L, s, drift, d);
    } else {
      SumNothing(L, s, drift, d, n - 1);
      DriftNext(L, s, drift, d, n - 1, n);
    }
  }

  lemma SumStarts(L: Layout, s: Shape, drift: seq<int>, d: nat)
    ensures DriftSum(L, s, drift, d, 0) == 0
  {
  }

  /** When callers that drift all drift upward, at least the drift of each is passed on. */
  lemma {:induction false} SumUpward(L: Layout, s: Shape, drift: seq<int>, d: nat, n: nat)
    requires WellFormed(L, s) && |drift| == |L.callables| && n <= |L.elements|
    requires forall y: nat, c: nat :: y < n && c < |drift| && DirectCall(L, s, y, c, d) ==> drift[c] >= 0
    ensures DriftSum(L, s, drift, d, n) >= 0
    ensures forall y: nat, c: nat :: y < n && c < |drift| && DirectCall(L, s, y, c, d) ==> DriftSum(L, s, drift, d, n) >= drift[c]
  {
    hide DriftSum; hide WellFormed;
    if n == 0 {
      SumStarts(L, s, drift, d);
    } else {
      SumUpward(L, s, drift, d, n - 1);
      DriftNext(L, s, drift, d, n - 1, n);
    }
  }

  lemma {:induction false} SumDownward(L: Layout, s: Shape, drift: seq<int>, d: nat, n: nat)
    requires WellFormed(L, s) && |drift| == |L.callables| && n <= |L.elements|
    requires forall y: nat, c: nat :: y < n && c < |drift| && DirectCall(L, s, y, c, d) ==> drift[c] <= 0
    ensures DriftSum(L, s, drift, d, n) <= 0
    ensures forall y: nat, c: nat :: y < n && c < |drift| && DirectCall(L, s, y, c, d) ==> DriftSum(L, s, drift, d, n) <= drift[c]
  {
    hide DriftSum; hide WellFormed;
    if n == 0 {
      SumStarts(L, s, drift, d);
    } else {
      SumDownward(L, s, drift, d, n - 1);
      DriftNext(L, s, drift, d, n - 1, n);
    }
  }

  /** If nothing arrives at d and all its direct callers but c stand still, then c stands still. */
  lemma LoneCaller(L: Layout, s: Shape, drift: seq<int>, y: nat, c: nat, d: nat)
    requires WellFormed(L, s) && |drift| == |L.callables| && DirectCall(L, s, y, c, d) && DriftInto(L, s, drift, d) == 0
    requires forall y': nat, b: nat :: b < |drift| && DirectCall(L, s, y', b, d) && b != c ==> drift[b] == 0
    ensures c < |drift| && drift[c] == 0
  {
    hide WellFormed; hide DriftSum;
    DirectForward(L, s, y, c, d);
    if drift[c] >= 0 {
      SumUpward(L, s, drift, d, |L.elements|);
    } else {
      SumDownward(L, s, drift, d, |L.elements|);
    }
  }

  /** A callable that no backward call enters passes on what it is passed. */
  lemma UnflaggedPass(L: Layout, s: Shape, visits: seq<nat>, declared: seq<nat>, drift: seq<int>, d: nat)
    requires WellFormed(L, s) && Drifts(L, s, visits, declared, drift) && OnlyFlagged(L, declared)
    requires d < |L.callables| && !L.callables[d].hasBackwardCall
    ensures Made(L, visits, d) == 0 && drift[d] == DriftInto(L, s, drift, d)
  {
    hide RowOk; hide PairOk; hide Reads; hide DriftInto;
    NoneMade(L, s, visits, d, |L.elements|);
    assert DriftsAt(L, s, visits, declared, drift, d);
  }

  lemma {:induction false} NoneMade(L: Layout, s: Shape, visits: seq<nat>, d: nat, n: nat)
    requires WellFormed(L, s) && |visits| == |L.elements| && n <= |L.elements|
    requires d < |L.callables| && !L.callables[d].hasBackwardCall
    ensures BackwardSum(L, visits, d, n) == 0
  {
    hide RowOk; hide PairOk;
    if n > 0 {
      NoneMade(L, s, visits, d, n - 1);
      assert FlagOk(L, d);
    }
  }

  /** The declared counts are the calls made. */
  predicate Right(L: Layout, visits: seq<nat>, declared: seq<nat>) {
    && |visits| == |L.elements| && |declared| == |L.callables|
    && forall c: nat :: c < |declared| ==> declared[c] == Made(L, visits, c)
  }

  predicate Still(drift: seq<int>) {
    forall c: nat :: c < |drift| ==> drift[c] == 0
  }

  lemma StillIsRight(L: Layout, s: Shape, visits: seq<nat>, declared: seq<nat>, drift: seq<int>)
    requires WellFormed(L, s) && Drifts(L, s, visits, declared, drift) && Still(drift)
    ensures Right(L, visits, declared)
  {
    hide WellFormed; hide Reads; hide Made;
    forall c: nat | c < |declared|
      ensures declared[c] == Made(L, visits, c)
    {
      assert DriftsAt(L, s, visits, declared, drift, c);
      SumNothing(L, s, drift, c, |L.elements|);
    }
  }

  /** Declared counts that are right let nothing drift. */
  lemma {:induction false} RightIsStill(L: Layout, s: Shape, visits: seq<nat>, declared: seq<nat>, drift: seq<int>, n: nat)
    requires WellFormed(L, s) && Drifts(L, s, visits, declared, drift) && Right(L, visits, declared) && n <= |drift|
    ensures forall c: nat :: c < n ==> drift[c] == 0
  {
    hide WellFormed; hide Reads; hide Made; hide DirectCall;
    if n > 0 {
      var d := n - 1;
      RightIsStill(L, s, visits, declared, drift, d);
      forall y: nat, c: nat | y < |L.elements| && c < |drift| && DirectCall(L, s, y, c, d)
        ensures drift[c] == 0
      {
        DirectForward(L, s, y, c, d);
      }
      SumNothing(L, s, drift, d, |L.elements|);
      assert DriftsAt(L, s, visits, declared, drift, d);
    }
  }

  /** A drift that some declared counts explain. */
  ghost predicate Possible(L: Layout, s: Shape, visits: seq<nat>, drift: seq<int>) {
    && |visits| == |L.elements| && |drift| == |L.callables|
    && forall d: nat :: d < |L.callables| ==> PossibleAt(L, s, visits, drift, d)
  }

  ghost predicate PossibleAt(L: Layout, s: Shape, visits: seq<nat>, drift: seq<int>, d: nat)
    requires |visits| == |L.elements| && |drift| == |L.callables| && d < |L.callables|
  {
    && (Reads(L, s, d) ==> drift[d] == 0)
    && RowOf(L, d) < |visits| && visits[RowOf(L, d)] + drift[d] >= 0
    && (if L.callables[d].hasBackwardCall then Made(L, visits, d) + drift[d] >= DriftInto(L, s, drift, d)
        else drift[d] == DriftInto(L, s, drift, d))
  }

  function DeclaredCount(L: Layout, s: Shape, visits: seq<nat>, drift: seq<int>, d: nat): nat
    requires |visits| == |L.elements| && |drift| == |L.callables| && d < |drift|
  {
    if Made(L, visits, d) + drift[d] < DriftInto(L, s, drift, d) then 0
    else Made(L, visits, d) + drift[d] - DriftInto(L, s, drift, d)
  }

  /** A possible drift has its declared counts. */
  lemma DeclaredFor(L: Layout, s: Shape, visits: seq<nat>, drift: seq<int>) returns (declared: seq<nat>)
    requires WellFormed(L, s) && Possible(L, s, visits, drift)
    ensures Drifts(L, s, visits, declared, drift) && OnlyFlagged(L, declared)
  {
    hide RowOk; hide PairOk; hide Reads; hide DriftInto; hide Made;
    declared := seq(|L.callables|, d requires 0 <= d < |L.callables| => DeclaredCount(L, s, visits, drift, d));
    forall d: nat | d < |L.callables|
      ensures DriftsAt(L, s, visits, declared, drift, d) && (!L.callables[d].hasBackwardCall ==> declared[d] == 0)
    {
      assert PossibleAt(L, s, visits, drift, d);
      assert declared[d] == DeclaredCount(L, s, visits, drift, d);
      if !L.callables[d].hasBackwardCall { NoCalls(L, s, visits, d); }
    }
  }

  lemma NoCalls(L: Layout, s: Shape, visits: seq<nat>, d: nat)
    requires WellFormed(L, s) && |visits| == |L.elements|
    requires d < |L.callables| && !L.callables[d].hasBackwardCall
    ensures Made(L, visits, d) == 0
  {
    hide WellFormed; hide BackwardSum;
    NoneMade(L, s, visits, d, |L.elements|);
  }

  lemma DriftIsPossible(L: Layout, s: Shape, visits: seq<nat>, declared: seq<nat>, drift: seq<int>)
    requires WellFormed(L, s) && Drifts(L, s, visits, declared, drift) && OnlyFlagged(L, declared)
    ensures Possible(L, s, visits, drift)
  {
    hide WellFormed; hide Reads; hide DriftInto; hide Made;
    forall d: nat | d < |L.callables|
      ensures PossibleAt(L, s, visits, drift, d)
    {
      assert DriftsAt(L, s, visits, declared, drift, d);
      if !L.callables[d].hasBackwardCall { UnflaggedPass(L, s, visits, declared, drift, d); }
    }
  }

  /** Nothing can drift in a run with these visits. */
  ghost predicate Rigid(L: Layout, s: Shape, visits: seq<nat>) {
    forall drift :: Possible(L, s, visits, drift) ==> Still(drift)
  }

  /** Whatever counts the columns are balanced for, they are the calls made. */
  ghost predicate Forced(L: Layout, s: Shape, n: nat, values: seq<seq<int>>, visits: seq<nat>)
    requires WellFormed(L, s)
  {
    forall declared :: OnlyFlagged(L, declared) && Accepts(L, s, n, declared, values) ==> Right(L, visits, declared)
  }

  /**
   * Of the bands that measuring uses up, exactly those leave no choice of declared counts in whose run
   * nothing can drift.
   */
  lemma ForcedExactly(L: Layout, s: Shape, n: nat, values: seq<seq<int>>, limit: nat)
    requires WellFormed(L, s) && |values| == |L.bands|
    requires Occurrences(L, values, n, limit).Done? && UsedUp(values, Occurrences(L, values, n, limit).m)
    ensures Forced(L, s, n, values, Occurrences(L, values, n, limit).m.visits)
       <==> Rigid(L, s, Occurrences(L, values, n, limit).m.visits)
  {
    hide Occurrences; hide RowOk; hide PairOk; hide Possible; hide Still; hide Right; hide OnlyFlagged;
    hide Accepts; hide Drifts; hide UsedUp;
    var visits := Occurrences(L, values, n, limit).m.visits;
    if Rigid(L, s, visits) {
      forall declared | OnlyFlagged(L, declared) && Accepts(L, s, n, declared, values)
        ensures Right(L, visits, declared)
      {
        AcceptedExactly(L, s, n, declared, values, limit);
        var drift :| Drifts(L, s, visits, declared, drift);
        DriftIsPossible(L, s, visits, declared, drift);
        StillIsRight(L, s, visits, declared, drift);
      }
    }
    if Forced(L, s, n, values, visits) {
      forall drift | Possible(L, s, visits, drift)
        ensures Still(drift)
      {
        var declared := DeclaredFor(L, s, visits, drift);
        AcceptedExactly(L, s, n, declared, values, limit);
        AllStill(L, s, visits, declared, drift);
      }
    }
  }

  lemma AllStill(L: Layout, s: Shape, visits: seq<nat>, declared: seq<nat>, drift: seq<int>)
    requires WellFormed(L, s) && Drifts(L, s, visits, declared, drift) && Right(L, visits, declared)
    ensures Still(drift)
  {
    hide WellFormed; hide Drifts; hide Right;
    RightIsStill(L, s, visits, declared, drift, |drift|);
  }

  //
  // Layouts that notice
  //

  /** From callable c direct forward calls lead to a body that reads a value. */
  ghost predicate Watched(L: Layout, s: Shape, c: nat)
    requires c < |L.callables|
    decreases |L.callables| - c
  {
    Reads(L, s, c) || exists y: nat, d: nat :: c < d < |L.callables| && DirectCall(L, s, y, c, d) && Watched(L, s, d)
  }

  /** Every callable that a backward call enters is watched. */
  ghost predicate AllWatched(L: Layout, s: Shape) {
    forall c: nat :: c < |L.callables| && L.callables[c].hasBackwardCall ==> Watched(L, s, c)
  }

  /** Measured and decoded: the bands are used up, and these counts were declared for them. */
  ghost predicate Passes(L: Layout, s: Shape, n: nat, declared: seq<nat>, values: seq<seq<int>>, limit: nat)
    requires WellFormed(L, s)
  {
    && |values| == |L.bands| && OnlyFlagged(L, declared) && Accepts(L, s, n, declared, values)
    && Occurrences(L, values, n, limit).Done? && UsedUp(values, Occurrences(L, values, n, limit).m)
  }

  /** No wrong count is ever accepted. */
  ghost predicate AlwaysRight(L: Layout, s: Shape)
    requires WellFormed(L, s)
  {
    forall n: nat, declared, values, limit: nat :: Passes(L, s, n, declared, values, limit) ==>
      Right(L, Occurrences(L, values, n, limit).m.visits, declared)
  }

  /** Where nothing was visited drift is upward, and nothing watched drifts. */
  lemma {:induction false} WatchedStays(L: Layout, s: Shape, visits: seq<nat>, drift: seq<int>, c: nat)
    requires WellFormed(L, s) && Possible(L, s, visits, drift) && c < |L.callables| && Watched(L, s, c)
    requires forall e: nat :: e < |visits| ==> visits[e] == 0
    ensures drift[c] == 0
    decreases |L.callables| - c
  {
    hide WellFormed; hide Reads; hide DirectCall; hide DriftSum;
    forall b: nat | b < |drift|
      ensures drift[b] >= 0
    {
      assert PossibleAt(L, s, visits, drift, b);
    }
    assert PossibleAt(L, s, visits, drift, c);
    if !Reads(L, s, c) {
      var y: nat, d: nat :| c < d < |L.callables| && DirectCall(L, s, y, c, d) && Watched(L, s, d);
      WatchedStays(L, s, visits, drift, d);
      assert PossibleAt(L, s, visits, drift, d);
      NothingMade(L, visits, d, |L.elements|);
      SumUpward(L, s, drift, d, |L.elements|);
      DirectForward(L, s, y, c, d);
    }
  }

  lemma {:induction false} NothingMade(L: Layout, visits: seq<nat>, d: nat, n: nat)
    requires |visits| == |L.elements| && n <= |L.elements| && forall e: nat :: e < |visits| ==> visits[e] == 0
    ensures BackwardSum(L, visits, d, n) == 0
  {
    if n > 0 { NothingMade(L, visits, d, n - 1); }
  }

  lemma NoOccurrence(L: Layout, s: Shape, values: seq<seq<int>>, limit: nat)
    requires WellFormed(L, s) && |values| == |L.bands|
    ensures Occurrences(L, values, 0, limit) == Done(Fresh(L)) && forall e: nat :: e < |L.elements| ==> Fresh(L).visits[e] == 0
    ensures |Fresh(L).visits| == |L.elements|
    ensures UsedUp(values, Fresh(L)) <==> forall b: nat :: b < |values| ==> values[b] == []
  {
  }

  /**
   * What an unwatched count comes to: callable c drifts by k, and every callable behind it by what its direct
   * callers pass on.
   */
  function Spread(L: Layout, s: Shape, c: nat, k: nat, m: nat): (drift: seq<int>)
    ensures |drift| == m
  {
    if m == 0 then [] else
    var before := Spread(L, s, c, k, m - 1);
    before + [if m - 1 == c then k else DriftInto(L, s, before, m - 1)]
  }

  lemma {:induction false} SpreadAt(L: Layout, s: Shape, c: nat, k: nat, d: nat, m: nat)
    requires d < m
    ensures Spread(L, s, c, k, m)[..d] == Spread(L, s, c, k, d)
    ensures Spread(L, s, c, k, m)[d] == if d == c then k else DriftInto(L, s, Spread(L, s, c, k, d), d)
    decreases m
  {
    hide DriftInto;
    if d < m - 1 {
      SpreadAt(L, s, c, k, d, m - 1);
    }
  }

  /** What arrives at d comes from callables before d. */
  lemma {:induction false} SumOfPrefix(L: Layout, s: Shape, drift: seq<int>, d: nat, n: nat)
    requires WellFormed(L, s) && |drift| == |L.callables| && d < |drift| && n <= |L.elements|
    ensures DriftSum(L, s, drift[..d], d, n) == DriftSum(L, s, drift, d, n)
  {
    hide WellFormed; hide RowDrift;
    if n > 0 {
      SumOfPrefix(L, s, drift, d, n - 1);
      if L.elements[n - 1].kind == Call && !L.elements[n - 1].backwardCall && L.elements[n - 1].targetCallable == d {
        RowOfPrefix(L, s, drift, d, n - 1);
      }
    }
  }

  lemma RowOfPrefix(L: Layout, s: Shape, drift: seq<int>, d: nat, y: nat)
    requires WellFormed(L, s) && |drift| == |L.callables| && d < |drift| && y < |L.elements|
    requires L.elements[y].kind == Call && !L.elements[y].backwardCall && L.elements[y].targetCallable == d
    ensures RowDrift(L, s, drift[..d], y) == RowDrift(L, s, drift, y)
  {
    hide PairOk;
    assert RowOk(L, s, y) && RowIndexed(L, s.parent[y]);
    var p := s.parent[y];
    if L.elements[p].kind == Callable {
      assert RowOk(L, s, p);
      assert DirectCall(L, s, y, L.elements[p].callableIndex, d);
      DirectForward(L, s, y, L.elements[p].callableIndex, d);
    }
  }

  lemma SpreadIs(L: Layout, s: Shape, c: nat, k: nat, d: nat)
    requires WellFormed(L, s) && d < |L.callables|
    ensures var drift := Spread(L, s, c, k, |L.callables|);
      drift[d] == if d == c then k else DriftInto(L, s, drift, d)
  {
    hide WellFormed; hide Spread;
    var drift := Spread(L, s, c, k, |L.callables|);
    SpreadAt(L, s, c, k, d, |L.callables|);
    SumOfPrefix(L, s, drift, d, |L.elements|);
  }

  /** It never reaches a watched callable, and nothing before c. */
  lemma {:induction false} SpreadStays(L: Layout, s: Shape, c: nat, k: nat, d: nat)
    requires WellFormed(L, s) && d < |L.callables| && c < |L.callables| && !Watched(L, s, c)
    ensures var drift := Spread(L, s, c, k, |L.callables|);
      && drift[d] >= 0 && (Watched(L, s, d) || d < c ==> drift[d] == 0)
    decreases d
  {
    hide WellFormed; hide Spread; hide DirectCall; hide Reads; hide DriftSum;
    var drift := Spread(L, s, c, k, |L.callables|);
    SpreadIs(L, s, c, k, d);
    forall y: nat, b: nat | y < |L.elements| && b < |drift| && DirectCall(L, s, y, b, d)
      ensures drift[b] >= 0 && (Watched(L, s, d) || d < c ==> drift[b] == 0)
    {
      DirectForward(L, s, y, b, d);
      SpreadStays(L, s, c, k, b);
    }
    SumUpward(L, s, drift, d, |L.elements|);
    if Watched(L, s, d) || d < c {
      SumNothing(L, s, drift, d, |L.elements|);
    }
  }

  /** Nothing arrives at c itself. */
  lemma SpreadStarts(L: Layout, s: Shape, c: nat, k: nat)
    requires WellFormed(L, s) && c < |L.callables| && !Watched(L, s, c)
    ensures DriftInto(L, s, Spread(L, s, c, k, |L.callables|), c) == 0
  {
    hide WellFormed; hide Spread; hide DirectCall; hide Watched; hide DriftSum;
    var drift := Spread(L, s, c, k, |L.callables|);
    forall y: nat, b: nat | y < |L.elements| && b < |drift| && DirectCall(L, s, y, b, c)
      ensures drift[b] == 0
    {
      DirectForward(L, s, y, b, c);
      SpreadStays(L, s, c, k, b);
    }
    SumNothing(L, s, drift, c, |L.elements|);
  }

  lemma SpreadPossible(L: Layout, s: Shape, visits: seq<nat>, c: nat, k: nat)
    requires WellFormed(L, s) && c < |L.callables| && L.callables[c].hasBackwardCall && !Watched(L, s, c)
    requires |visits| == |L.elements| && forall e: nat :: e < |visits| ==> visits[e] == 0
    ensures Possible(L, s, visits, Spread(L, s, c, k, |L.callables|))
  {
    hide RowOk; hide PairOk; hide Spread; hide DriftInto; hide Reads;
    var drift := Spread(L, s, c, k, |L.callables|);
    CallableRows(L, s);
    SpreadStarts(L, s, c, k);
    forall d: nat | d < |L.callables|
      ensures PossibleAt(L, s, visits, drift, d)
    {
      SpreadIs(L, s, c, k, d);
      SpreadStays(L, s, c, k, d);
      NothingMade(L, visits, d, |L.elements|);
    }
  }

  /** Any number declared for an unwatched callable passes when there is no occurrence at all. */
  lemma AnyCountPasses(L: Layout, s: Shape, c: nat, k: nat, values: seq<seq<int>>, limit: nat) returns (declared: seq<nat>)
    requires WellFormed(L, s) && c < |L.callables| && L.callables[c].hasBackwardCall && !Watched(L, s, c)
    requires |values| == |L.bands| && forall b: nat :: b < |values| ==> values[b] == []
    ensures Passes(L, s, 0, declared, values, limit) && declared[c] == k
    ensures Made(L, Occurrences(L, values, 0, limit).m.visits, c) == 0
  {
    hide WellFormed; hide Spread; hide DriftInto; hide Reads; hide Watched; hide Occurrences; hide UsedUp; hide Accepts;
    NoOccurrence(L, s, values, limit);
    var visits := Fresh(L).visits;
    var drift := Spread(L, s, c, k, |L.callables|);
    SpreadPossible(L, s, visits, c, k);
    declared := DeclaredFor(L, s, visits, drift);
    AcceptedExactly(L, s, 0, declared, values, limit);
    SpreadIs(L, s, c, k, c);
    SpreadStarts(L, s, c, k);
    NothingMade(L, visits, c, |L.elements|);
    assert DriftsAt(L, s, visits, declared, drift, c);
  }

  /** No wrong count is accepted for an attribute that does not occur. */
  ghost predicate RightAtNone(L: Layout, s: Shape)
    requires WellFormed(L, s)
  {
    forall declared, values, limit: nat :: Passes(L, s, 0, declared, values, limit) ==>
      Right(L, Occurrences(L, values, 0, limit).m.visits, declared)
  }

  /** Without occurrences, wrong counts are refused exactly in layouts in which every flagged callable is watched. */
  lemma NoOccurrenceExactly(L: Layout, s: Shape)
    requires WellFormed(L, s)
    ensures RightAtNone(L, s) <==> AllWatched(L, s)
  {
    hide RowOk; hide PairOk; hide Watched; hide Occurrences; hide UsedUp; hide Accepts; hide OnlyFlagged; hide Made;
    hide Drifts; hide Possible;
    if AllWatched(L, s) {
      forall declared, values, limit: nat | Passes(L, s, 0, declared, values, limit)
        ensures Right(L, Occurrences(L, values, 0, limit).m.visits, declared)
      {
        PassesRight(L, s, declared, values, limit);
      }
    }
    if RightAtNone(L, s) {
      forall c: nat | c < |L.callables| && L.callables[c].hasBackwardCall
        ensures Watched(L, s, c)
      {
        if !Watched(L, s, c) {
          var declared := AnyCountPasses(L, s, c, 1, seq(|L.bands|, _ => []), 0);
          assert false;
        }
      }
    }
  }

  lemma PassesRight(L: Layout, s: Shape, declared: seq<nat>, values: seq<seq<int>>, limit: nat)
    requires WellFormed(L, s) && AllWatched(L, s) && Passes(L, s, 0, declared, values, limit)
    ensures Right(L, Occurrences(L, values, 0, limit).m.visits, declared)
  {
    hide WellFormed; hide Watched; hide Occurrences; hide UsedUp; hide DriftSum; hide Made; hide Reads;
    NoOccurrence(L, s, values, limit);
    var visits := Fresh(L).visits;
    AcceptedExactly(L, s, 0, declared, values, limit);
    var drift :| Drifts(L, s, visits, declared, drift);
    DriftIsPossible(L, s, visits, declared, drift);
    forall c: nat | c < |declared|
      ensures declared[c] == Made(L, visits, c)
    {
      CountIsRight(L, s, visits, declared, drift, c);
    }
  }

  lemma CountIsRight(L: Layout, s: Shape, visits: seq<nat>, declared: seq<nat>, drift: seq<int>, c: nat)
    requires WellFormed(L, s) && AllWatched(L, s) && Drifts(L, s, visits, declared, drift) && OnlyFlagged(L, declared)
    requires Possible(L, s, visits, drift) && (forall e: nat :: e < |visits| ==> visits[e] == 0) && c < |L.callables|
    ensures declared[c] == Made(L, visits, c)
  {
    hide WellFormed; hide Watched; hide DriftSum; hide Reads; hide DirectCall; hide BackwardSum;
    NothingMade(L, visits, c, |L.elements|);
    assert DriftsAt(L, s, visits, declared, drift, c);
    if L.callables[c].hasBackwardCall {
      WatchedStays(L, s, visits, drift, c);
      forall b: nat | b < |drift|
        ensures drift[b] >= 0
      {
        assert PossibleAt(L, s, visits, drift, b);
      }
      SumUpward(L, s, drift, c, |L.elements|);
    }
  }

  /**
   * No callable that a value-less callable calls directly is called backward, or so by two value-less ones.
   */
  ghost predicate SoleCallers(L: Layout, s: Shape) {
    forall y: nat, c: nat, d: nat :: c < |L.callables| && d < |L.callables| && DirectCall(L, s, y, c, d) && !Reads(L, s, c) ==>
      && !L.callables[d].hasBackwardCall
      && forall y': nat, b: nat :: b < |L.callables| && DirectCall(L, s, y', b, d) && !Reads(L, s, b) ==> b == c
  }

  /** There drift cannot cancel out: nothing watched drifts, whatever was visited. */
  lemma {:induction false} SoleStays(L: Layout, s: Shape, visits: seq<nat>, drift: seq<int>, c: nat)
    requires WellFormed(L, s) && SoleCallers(L, s) && Possible(L, s, visits, drift) && c < |L.callables| && Watched(L, s, c)
    ensures drift[c] == 0
    decreases |L.callables| - c
  {
    hide WellFormed; hide Reads; hide DirectCall; hide DriftSum; hide Made;
    assert PossibleAt(L, s, visits, drift, c);
    if !Reads(L, s, c) {
      var y: nat, d: nat :| c < d < |L.callables| && DirectCall(L, s, y, c, d) && Watched(L, s, d);
      SoleStays(L, s, visits, drift, d);
      assert PossibleAt(L, s, visits, drift, d);
      forall y': nat, b: nat | b < |drift| && DirectCall(L, s, y', b, d) && b != c
        ensures drift[b] == 0
      {
        assert PossibleAt(L, s, visits, drift, b);
      }
      LoneCaller(L, s, drift, y, c, d);
    }
  }

  lemma SoleIsRight(L: Layout, s: Shape, n: nat, declared: seq<nat>, values: seq<seq<int>>, limit: nat)
    requires WellFormed(L, s) && SoleCallers(L, s) && AllWatched(L, s) && Passes(L, s, n, declared, values, limit)
    ensures Right(L, Occurrences(L, values, n, limit).m.visits, declared)
  {
    hide RowOk; hide PairOk; hide FlagOk; hide Watched; hide Occurrences; hide UsedUp; hide DriftInto;
    hide BackwardSum; hide Reads; hide SoleCallers; hide Accepts;
    var visits := Occurrences(L, values, n, limit).m.visits;
    AcceptedExactly(L, s, n, declared, values, limit);
    var drift :| Drifts(L, s, visits, declared, drift);
    DriftIsPossible(L, s, visits, declared, drift);
    forall c: nat | c < |declared|
      ensures declared[c] == Made(L, visits, c)
    {
      if L.callables[c].hasBackwardCall {
        SoleStays(L, s, visits, drift, c);
        NothingArrives(L, s, visits, drift, c);
        assert DriftsAt(L, s, visits, declared, drift, c);
      } else {
        UnflaggedPass(L, s, visits, declared, drift, c);
      }
    }
  }

  /** Only callables with values of their own call a flagged one directly. */
  lemma NothingArrives(L: Layout, s: Shape, visits: seq<nat>, drift: seq<int>, c: nat)
    requires WellFormed(L, s) && SoleCallers(L, s) && Possible(L, s, visits, drift)
    requires c < |L.callables| && L.callables[c].hasBackwardCall
    ensures DriftInto(L, s, drift, c) == 0
  {
    hide WellFormed; hide Reads; hide DirectCall; hide DriftSum; hide Made;
    forall y: nat, b: nat | y < |L.elements| && b < |drift| && DirectCall(L, s, y, b, c)
      ensures drift[b] == 0
    {
      assert PossibleAt(L, s, visits, drift, b);
    }
    SumNothing(L, s, drift, c, |L.elements|);
  }

  /** Among layouts with sole callers, exactly those in which every flagged callable is watched accept no wrong count. */
  lemma SoleCallersExactly(L: Layout, s: Shape)
    requires WellFormed(L, s) && SoleCallers(L, s)
    ensures AlwaysRight(L, s) <==> AllWatched(L, s)
  {
    hide RowOk; hide PairOk; hide FlagOk; hide Watched; hide Occurrences; hide Right; hide OnlyFlagged;
    hide Accepts; hide UsedUp; hide SoleCallers;
    if AllWatched(L, s) {
      forall n: nat, declared, values, limit: nat | Passes(L, s, n, declared, values, limit)
        ensures Right(L, Occurrences(L, values, n, limit).m.visits, declared)
      {
        SoleIsRight(L, s, n, declared, values, limit);
      }
    }
    if AlwaysRight(L, s) {
      NoOccurrenceExactly(L, s);
    }
  }

  /**
   * Callable c stands still once those of lower rank do: it reads a value itself; or no backward call enters it
   * and its direct callers rank lower; or it is the last to call an unflagged callable that stands still.
   */
  ghost predicate Settles(L: Layout, s: Shape, rank: seq<nat>, c: nat)
    requires c < |rank| == |L.callables|
  {
    || Reads(L, s, c)
    || (!L.callables[c].hasBackwardCall && CallersLower(L, s, rank, c, c, c))
    || exists y: nat, d: nat :: d < |rank| && DirectCall(L, s, y, c, d) && !L.callables[d].hasBackwardCall
                                && (Reads(L, s, d) || rank[d] < rank[c]) && CallersLower(L, s, rank, d, c, c)
  }

  /** The value-less direct callers of d other than `but` rank below c. */
  ghost predicate CallersLower(L: Layout, s: Shape, rank: seq<nat>, d: nat, but: nat, c: nat)
    requires c < |rank| == |L.callables|
  {
    forall y: nat, b: nat :: b < |rank| && b != but && DirectCall(L, s, y, b, d) && !Reads(L, s, b) ==> rank[b] < rank[c]
  }

  /** The callables can be ranked so that each settles. */
  ghost predicate Ranked(L: Layout, s: Shape) {
    exists rank: seq<nat> :: RankedBy(L, s, rank)
  }

  ghost predicate RankedBy(L: Layout, s: Shape, rank: seq<nat>) {
    |rank| == |L.callables| && forall c: nat :: c < |rank| ==> Settles(L, s, rank, c)
  }

  lemma {:induction false} RankStays(L: Layout, s: Shape, rank: seq<nat>, visits: seq<nat>, drift: seq<int>, c: nat)
    requires WellFormed(L, s) && RankedBy(L, s, rank) && Possible(L, s, visits, drift) && c < |L.callables|
    ensures drift[c] == 0
    decreases rank[c]
  {
    hide WellFormed; hide Reads; hide DirectCall; hide DriftSum; hide Made;
    assert Settles(L, s, rank, c) && PossibleAt(L, s, visits, drift, c);
    if Reads(L, s, c) {
    } else if !L.callables[c].hasBackwardCall && CallersLower(L, s, rank, c, c, c) {
      forall y: nat, b: nat | y < |L.elements| && b < |drift| && DirectCall(L, s, y, b, c)
        ensures drift[b] == 0
      {
        DirectForward(L, s, y, b, c);
        CallerStays(L, s, rank, visits, drift, y, b, c, c, c);
      }
      SumNothing(L, s, drift, c, |L.elements|);
    } else {
      var y: nat, d: nat :| d < |rank| && DirectCall(L, s, y, c, d) && !L.callables[d].hasBackwardCall
                            && (Reads(L, s, d) || rank[d] < rank[c]) && CallersLower(L, s, rank, d, c, c);
      assert PossibleAt(L, s, visits, drift, d);
      if !Reads(L, s, d) {
        RankStays(L, s, rank, visits, drift, d);
      }
      forall y': nat, b: nat | b < |drift| && DirectCall(L, s, y', b, d) && b != c
        ensures drift[b] == 0
      {
        CallerStays(L, s, rank, visits, drift, y', b, d, c, c);
      }
      LoneCaller(L, s, drift, y, c, d);
    }
  }

  lemma {:induction false} CallerStays(L: Layout, s: Shape, rank: seq<nat>, visits: seq<nat>, drift: seq<int>, y: nat,
                                       b: nat, d: nat, but: nat, c: nat)
    requires WellFormed(L, s) && RankedBy(L, s, rank) && Possible(L, s, visits, drift) && c < |L.callables|
    requires CallersLower(L, s, rank, d, but, c) && b < |rank| && b != but && DirectCall(L, s, y, b, d)
    ensures drift[b] == 0
    decreases rank[c], 0
  {
    hide WellFormed; hide Reads; hide DirectCall; hide DriftSum; hide Made;
    assert PossibleAt(L, s, visits, drift, b);
    if !Reads(L, s, b) {
      RankStays(L, s, rank, visits, drift, b);
    }
  }

  /**
   * When the callables can be ranked, measuring accepts no declared counts but the true ones: each callable
   * was declared as many backward entries as backward calls were made into it.
   */
  lemma DeclaredAreMade(L: Layout, s: Shape)
    requires WellFormed(L, s) && Ranked(L, s)
    ensures AlwaysRight(L, s)
  {
    hide RowOk; hide PairOk; hide FlagOk; hide Occurrences; hide UsedUp; hide Accepts; hide RankedBy; hide Drifts;
    hide Possible; hide Right; hide OnlyFlagged;
    var rank: seq<nat> :| RankedBy(L, s, rank);
    forall n: nat, declared, values, limit: nat | Passes(L, s, n, declared, values, limit)
      ensures Right(L, Occurrences(L, values, n, limit).m.visits, declared)
    {
      var visits := Occurrences(L, values, n, limit).m.visits;
      AcceptedExactly(L, s, n, declared, values, limit);
      var drift :| Drifts(L, s, visits, declared, drift);
      DriftIsPossible(L, s, visits, declared, drift);
      DriftSizes(L, s, visits, declared, drift);
      forall c: nat | c < |drift|
        ensures drift[c] == 0
      {
        RankStays(L, s, rank, visits, drift, c);
      }
      StillIsRight(L, s, visits, declared, drift);
    }
  }

  /** The simplest case: every callable reads a value itself. */
  lemma AllReadIsRanked(L: Layout, s: Shape)
    requires forall c: nat :: c < |L.callables| ==> Reads(L, s, c)
    ensures Ranked(L, s)
  {
    hide Reads;
    assert RankedBy(L, s, seq(|L.callables|, _ => 0));
  }
}
