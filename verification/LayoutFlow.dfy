// Flow conservation of the row-wise machine, and the theorem that rows consume exactly what the
// columns hold.
module LayoutFlow {
  import opened Common
  import opened LayoutModel
  import opened LayoutMachine

  lemma TakenBump(values: seq<seq<int>>, cursor: seq<nat>, b: nat)
    requires |values| == |cursor| && b < |values| && cursor[b] < |values[b]|
    ensures Taken(values, Bump(cursor, b)) == Taken(values, cursor)[b := Taken(values, cursor)[b] + [values[b][cursor[b]]]]
  {
    assert values[b][..cursor[b] + 1] == values[b][..cursor[b]] + [values[b][cursor[b]]];
  }

  lemma SumSnoc(vs: seq<int>, v: int)
    ensures Sum(vs + [v]) == Sum(vs) + v
  {
    assert (vs + [v])[..|vs|] == vs;
  }

  lemma PicksSnoc(L: Layout, s: Shape, c: nat, vs: seq<int>, v: int)
    requires Indexed(L) && |s.parent| == |L.elements| && c < |L.elements|
    ensures CountPicks(L, s, c, vs + [v]) == CountPicks(L, s, c, vs) + if Picks(L, s, c, v) then 1 else 0
  {
    assert (vs + [v])[..|vs|] == vs;
  }

  lemma {:induction false} CallSumBump(L: Layout, visits: seq<nat>, e: nat, c: nat, n: nat)
    requires |visits| == |L.elements| && n <= |L.elements| && e < |L.elements|
    ensures CallSum(L, Bump(visits, e), c, n) == CallSum(L, visits, c, n)
      + if e < n && L.elements[e].kind == Call && L.elements[e].targetCallable == c then 1 else 0
  {
    if n > 0 { CallSumBump(L, visits, e, c, n - 1); }
  }

  /** Select returns the one case that the declarative reading of the union picks. */
  lemma {:induction false} SelectFrom(L: Layout, s: Shape, u: nat, c: nat, v: int)
    requires WellFormed(L, s) && u < |L.elements| && L.elements[u].kind == Union
    requires 1 <= c < |L.elements| && s.parent[c] == u
    requires forall d: nat :: 1 <= d < c && s.parent[d] == u ==> !Contains(L, d, v)
    ensures Select(L, c, NO_INDEX, v) < |L.elements|
    ensures Picks(L, s, Select(L, c, NO_INDEX, v), v)
    ensures s.parent[Select(L, c, NO_INDEX, v)] == u && 1 <= Select(L, c, NO_INDEX, v)
    decreases |L.elements| - c
  {
    assert RowOk(L, s, c) && RowIndexed(L, c);
    var next := L.elements[c].nextSibling;
    if L.elements[c].selectorCount == 0 {
      assert Select(L, NO_INDEX, c, v) == c;
      forall d: nat | c < d < |L.elements|
        ensures s.parent[d] != u
      {
        assert PairOk(L, s, c, d);
      }
    } else if !Contains(L, c, v) {
      forall d: nat | c < d < next
        ensures s.parent[d] != u
      {
        assert PairOk(L, s, c, d);
      }
      SelectFrom(L, s, u, next, v);
    }
  }

  lemma SelectPicks(L: Layout, s: Shape, u: nat, v: int)
    requires WellFormed(L, s) && u < |L.elements| && L.elements[u].kind == Union
    ensures Within(L.elements[u].firstChild, |L.elements|)
    ensures var c := Select(L, L.elements[u].firstChild, NO_INDEX, v);
      1 <= c < |L.elements| && s.parent[c] == u && Picks(L, s, c, v)
  {
    assert RowOk(L, s, u);
    var first := L.elements[u].firstChild;
    assert RowOk(L, s, first);
    forall d: nat | 1 <= d < first
      ensures s.parent[d] != u
    {
      assert RowOk(L, s, d);
      if u < d { assert PairOk(L, s, u, d); }
    }
    SelectFrom(L, s, u, first, v);
  }

  /** Two cases of one union never pick the same value. */
  lemma PicksUnique(L: Layout, s: Shape, c: nat, d: nat, v: int)
    requires WellFormed(L, s) && 1 <= c < d < |L.elements|
    requires s.parent[c] == s.parent[d] && L.elements[c].kind == UnionCase
    ensures !(Picks(L, s, c, v) && Picks(L, s, d, v))
  {
    assert RowOk(L, s, c) && RowOk(L, s, d);
    assert PairOk(L, s, c, d);
    assert RowIndexed(L, c) && RowIndexed(L, d);
  }

  /** What the machine must add to row x once row e has consumed v but not yet descended. */
  ghost function Owed(L: Layout, s: Shape, e: nat, v: int, x: nat): int
    requires WellFormed(L, s) && e < |L.elements| && x < |L.elements|
  {
    assert RowIndexed(L, e);
    match L.elements[e].kind
    case Replication => if x > 0 && s.parent[x] == e then v else 0
    case Union => if x > 0 && s.parent[x] == e && Picks(L, s, x, v) then 1 else 0
    case Call => if x == L.callables[L.elements[e].targetCallable].elementIndex then 1 else 0
    case _ => 0
  }

  /** Row x is short by exactly what e still owes it. */
  ghost predicate RowOwed(L: Layout, s: Shape, values: seq<seq<int>>, occ: nat, m: Machine, e: nat, v: int, x: nat)
    requires WellFormed(L, s) && MachineOk(L, m) && |values| == |L.bands| && 1 <= x < |L.elements| && e < |L.elements|
  {
    m.visits[x] + Pending(s, m.frames, x) + Owed(L, s, e, v, x)
      == Flow(L, s, occ, Taken(values, m.cursor), m.visits, x)
  }

  ghost predicate Owing(L: Layout, s: Shape, values: seq<seq<int>>, occ: nat, m: Machine, e: nat, v: int)
    requires WellFormed(L, s) && |values| == |L.bands| && e < |L.elements|
  {
    && MachineOk(L, m)
    && (forall b: nat :: b < |L.bands| ==> CursorOk(L, s, values, m, b))
    && (forall k :: 0 <= k < |m.frames| ==> FrameWell(L, s, m.frames[k]))
    && (forall x: nat :: 1 <= x < |L.elements| ==> RowOwed(L, s, values, occ, m, e, v, x))
  }

  /** Visiting a case or callable once more adds one visit to each of its children. */
  lemma FlowBump(L: Layout, s: Shape, occ: nat, taken: seq<seq<int>>, visits: seq<nat>, c: nat, x: nat)
    requires WellFormed(L, s) && |visits| == |L.elements| && |taken| == |L.bands|
    requires c < |L.elements| && 1 <= x < |L.elements|
    requires L.elements[c].kind == UnionCase || L.elements[c].kind == Callable
    ensures Flow(L, s, occ, taken, Bump(visits, c), x)
         == Flow(L, s, occ, taken, visits, x) + if s.parent[x] == c then 1 else 0
  {
    assert RowOk(L, s, x);
    CallSumBump(L, visits, c, L.elements[x].callableIndex, |L.elements|);
  }

  /** Visiting row e and consuming v leaves every other row short by what e owes it. */
  lemma FlowVisit(L: Layout, s: Shape, occ: nat, taken: seq<seq<int>>, taken': seq<seq<int>>,
                  visits: seq<nat>, e: nat, v: int, x: nat)
    requires WellFormed(L, s) && |visits| == |L.elements| && |taken| == |taken'| == |L.bands|
    requires 1 <= e < |L.elements| && 1 <= x < |L.elements|
    requires L.elements[e].kind != UnionCase && L.elements[e].kind != Callable
    requires HasBand(L.elements[e]) ==>
               && L.elements[e].bandIndex < |L.bands|
               && taken' == taken[L.elements[e].bandIndex := taken[L.elements[e].bandIndex] + [v]]
    requires !HasBand(L.elements[e]) ==> taken' == taken
    ensures Flow(L, s, occ, taken', Bump(visits, e), x) == Flow(L, s, occ, taken, visits, x) + Owed(L, s, e, v, x)
  {
    assert RowOk(L, s, x) && RowOk(L, s, e);
    var p := s.parent[x];
    assert RowOk(L, s, p);
    if L.elements[x].kind == Callable {
      CallSumBump(L, visits, e, L.elements[x].callableIndex, |L.elements|);
      if L.elements[e].kind == Call {
        assert CallableOk(L, L.elements[e].targetCallable);
      }
    } else {
      if L.elements[e].kind == Call {
        assert CallableOk(L, L.elements[e].targetCallable);
      }
      if p == e && L.elements[e].kind == Replication {
        SumSnoc(taken[L.elements[e].bandIndex], v);
      } else if p == e && L.elements[e].kind == Union {
        PicksSnoc(L, s, x, taken[L.elements[e].bandIndex], v);
      }
    }
  }

  /** Rows a frame can stand at are never cases or callables. */
  lemma FrameRow(L: Layout, s: Shape, f: Frame)
    requires WellFormed(L, s) && FrameWell(L, s, f) && f.next != NO_INDEX
    ensures L.elements[f.next].kind != UnionCase && L.elements[f.next].kind != Callable && f.next > 0
  {
    assert RowOk(L, s, f.next);
  }

  /** The machine after it read row e's value but before it descends. */
  ghost function Moved(L: Layout, m: Machine, e: nat): Machine
    requires MachineOk(L, m) && m.frames != [] && e < |L.elements|
    requires HasBand(L.elements[e]) ==> L.elements[e].bandIndex < |L.bands|
  {
    var top := m.frames[|m.frames| - 1];
    m.(frames := m.frames[..|m.frames| - 1] + [top.(next := L.elements[e].nextSibling)],
       visits := Bump(m.visits, e),
       cursor := if HasBand(L.elements[e]) then Bump(m.cursor, L.elements[e].bandIndex) else m.cursor)
  }

  /** The top frame stands at row e, and v is the value its band gives out next. */
  ghost predicate AtRow(L: Layout, values: seq<seq<int>>, m: Machine, e: nat, v: int)
    requires MachineOk(L, m) && |values| == |L.bands|
  {
    && m.frames != [] && m.frames[|m.frames| - 1].next == e != NO_INDEX && e < |L.elements|
    && (HasBand(L.elements[e]) ==>
          var b := L.elements[e].bandIndex;
          b < |L.bands| && m.cursor[b] < |values[b]| && v == values[b][m.cursor[b]])
  }

  lemma MovedCursor(L: Layout, s: Shape, values: seq<seq<int>>, m: Machine, e: nat, v: int, b: nat)
    requires WellFormed(L, s) && |values| == |L.bands| && MachineOk(L, m) && AtRow(L, values, m, e, v)
    requires b < |L.bands| && CursorOk(L, s, values, m, b)
    ensures CursorOk(L, s, values, Moved(L, m, e), b)
  {
    assert RowOk(L, s, e) && BandOk(L, s, b);
  }

  lemma MovedRow(L: Layout, s: Shape, values: seq<seq<int>>, occ: nat, m: Machine, e: nat, v: int, x: nat)
    requires WellFormed(L, s) && |values| == |L.bands| && MachineOk(L, m) && AtRow(L, values, m, e, v)
    requires FrameWell(L, s, m.frames[|m.frames| - 1])
    requires MachineOk(L, Moved(L, m, e))
    requires 1 <= x < |L.elements| && RowConserved(L, s, values, occ, m, x)
    ensures RowOwed(L, s, values, occ, Moved(L, m, e), e, v, x)
  {
    var top := m.frames[|m.frames| - 1];
    FrameRow(L, s, top);
    PendingAdvance(L, s, top, x);
    PendingTop(s, m.frames, top.(next := L.elements[e].nextSibling), x);
    var n := Moved(L, m, e);
    if HasBand(L.elements[e]) {
      TakenBump(values, m.cursor, L.elements[e].bandIndex);
    }
    FlowVisit(L, s, occ, Taken(values, m.cursor), Taken(values, n.cursor), m.visits, e, v, x);
  }

  lemma MovedFrames(L: Layout, s: Shape, m: Machine, e: nat)
    requires WellFormed(L, s) && MachineOk(L, m) && e < |L.elements|
    requires m.frames != [] && m.frames[|m.frames| - 1].next == e
    requires HasBand(L.elements[e]) ==> L.elements[e].bandIndex < |L.bands|
    requires forall k :: 0 <= k < |m.frames| ==> FrameWell(L, s, m.frames[k])
    ensures MachineOk(L, Moved(L, m, e))
    ensures forall k :: 0 <= k < |Moved(L, m, e).frames| ==> FrameWell(L, s, Moved(L, m, e).frames[k])
  {
    var top := m.frames[|m.frames| - 1];
    assert FrameWell(L, s, top);
    FrameRow(L, s, top);
    PendingAdvance(L, s, top, e);
  }

  lemma VisitOwes(L: Layout, s: Shape, values: seq<seq<int>>, occ: nat, m: Machine, e: nat, v: int)
    requires WellFormed(L, s) && |values| == |L.bands| && Conserved(L, s, values, occ, m) && AtRow(L, values, m, e, v)
    ensures Owing(L, s, values, occ, Moved(L, m, e), e, v)
  {
    var n := Moved(L, m, e);
    MovedFrames(L, s, m, e);
    forall b: nat | b < |L.bands|
      ensures CursorOk(L, s, values, n, b)
    {
      assert CursorOk(L, s, values, m, b);
      MovedCursor(L, s, values, m, e, v, b);
    }
    assert FrameWell(L, s, m.frames[|m.frames| - 1]);
    forall x: nat | 1 <= x < |L.elements|
      ensures RowOwed(L, s, values, occ, n, e, v, x)
    {
      assert RowConserved(L, s, values, occ, m, x);
      MovedRow(L, s, values, occ, m, e, v, x);
    }
  }

  /** Owing does not depend on what was written. */
  lemma OwingWrite(L: Layout, s: Shape, values: seq<seq<int>>, occ: nat, m: Machine, e: nat, v: int)
    requires WellFormed(L, s) && |values| == |L.bands| && e < |L.elements| && Owing(L, s, values, occ, m, e, v)
    ensures Owing(L, s, values, occ, Write(L.elements[e], v, m), e, v)
  {
    var n := Write(L.elements[e], v, m);
    forall b: nat | b < |L.bands|
      ensures CursorOk(L, s, values, n, b)
    {
      assert CursorOk(L, s, values, m, b);
    }
    forall x: nat | 1 <= x < |L.elements|
      ensures RowOwed(L, s, values, occ, n, e, v, x)
    {
      assert RowOwed(L, s, values, occ, m, e, v, x);
    }
  }

  /** Pushing the children of row p pays each of them `times` visits. */
  lemma PushPays(L: Layout, s: Shape, m: Machine, p: nat, times: nat, x: nat)
    requires WellFormed(L, s) && p < |L.elements| && Iterable(L, p) && 1 <= x < |L.elements|
    ensures Pending(s, Push(m, L.elements[p].firstChild, times).frames, x)
         == Pending(s, m.frames, x) + if s.parent[x] == p then times else 0
  {
    if L.elements[p].firstChild == NO_INDEX {
      Childless(L, s, p, x);
    } else if times > 0 {
      PendingFresh(L, s, p, times, x);
      PendingPush(s, m.frames, Frame(L.elements[p].firstChild, L.elements[p].firstChild, times), x);
    }
  }

  lemma PushFrames(L: Layout, s: Shape, m: Machine, p: nat, times: nat)
    requires WellFormed(L, s) && p < |L.elements| && Iterable(L, p) && MachineOk(L, m)
    requires forall k :: 0 <= k < |m.frames| ==> FrameWell(L, s, m.frames[k])
    ensures var n := Push(m, L.elements[p].firstChild, times);
            MachineOk(L, n) && forall k :: 0 <= k < |n.frames| ==> FrameWell(L, s, n.frames[k])
  {
    if L.elements[p].firstChild != NO_INDEX && times > 0 {
      assert RowOk(L, s, p);
      PendingFresh(L, s, p, times, L.elements[p].firstChild);
    }
  }

  /** A row reached by a case selection or a call: its one visit and its children's are all paid. */
  lemma DescendPays(L: Layout, s: Shape, values: seq<seq<int>>, occ: nat, m: Machine, e: nat, v: int, c: nat)
    requires WellFormed(L, s) && |values| == |L.bands| && e < |L.elements| && Owing(L, s, values, occ, m, e, v)
    requires c < |L.elements| && (L.elements[c].kind == UnionCase || L.elements[c].kind == Callable)
    requires forall x: nat :: 1 <= x < |L.elements| ==> Owed(L, s, e, v, x) == if x == c then 1 else 0
    ensures Conserved(L, s, values, occ, Push(m.(visits := Bump(m.visits, c)), L.elements[c].firstChild, 1))
  {
    var m1 := m.(visits := Bump(m.visits, c));
    var n := Push(m1, L.elements[c].firstChild, 1);
    assert RowOk(L, s, c);
    PushFrames(L, s, m1, c, 1);
    forall b: nat | b < |L.bands|
      ensures CursorOk(L, s, values, n, b)
    {
      assert CursorOk(L, s, values, m, b) && BandOk(L, s, b);
    }
    forall x: nat | 1 <= x < |L.elements|
      ensures RowConserved(L, s, values, occ, n, x)
    {
      assert RowOwed(L, s, values, occ, m, e, v, x);
      PushPays(L, s, m1, c, 1, x);
      FlowBump(L, s, occ, Taken(values, m.cursor), m.visits, c, x);
    }
  }

  lemma ReplicationPays(L: Layout, s: Shape, values: seq<seq<int>>, occ: nat, m: Machine, e: nat, v: nat)
    requires WellFormed(L, s) && |values| == |L.bands| && e < |L.elements| && Owing(L, s, values, occ, m, e, v)
    requires L.elements[e].kind == Replication
    ensures Conserved(L, s, values, occ, Push(m, L.elements[e].firstChild, v))
  {
    var n := Push(m, L.elements[e].firstChild, v);
    PushFrames(L, s, m, e, v);
    forall b: nat | b < |L.bands|
      ensures CursorOk(L, s, values, n, b)
    {
      assert CursorOk(L, s, values, m, b);
    }
    forall x: nat | 1 <= x < |L.elements|
      ensures RowConserved(L, s, values, occ, n, x)
    {
      assert RowOwed(L, s, values, occ, m, e, v, x);
      PushPays(L, s, m, e, v, x);
    }
  }

  lemma LeafPays(L: Layout, s: Shape, values: seq<seq<int>>, occ: nat, m: Machine, e: nat, v: int)
    requires WellFormed(L, s) && |values| == |L.bands| && e < |L.elements| && Owing(L, s, values, occ, m, e, v)
    requires forall x: nat :: 1 <= x < |L.elements| ==> Owed(L, s, e, v, x) == 0
    ensures Conserved(L, s, values, occ, m)
  {
    forall x: nat | 1 <= x < |L.elements|
      ensures RowConserved(L, s, values, occ, m, x)
    {
      assert RowOwed(L, s, values, occ, m, e, v, x);
    }
  }

  /** Descending below row e pays everything e owes; it never finds a union without a matching case. */
  lemma EnterPays(L: Layout, s: Shape, values: seq<seq<int>>, occ: nat, m: Machine, e: nat, v: int)
    requires WellFormed(L, s) && |values| == |L.bands| && e < |L.elements| && Owing(L, s, values, occ, m, e, v)
    ensures Enter(L, e, v, m).Running? ==> Conserved(L, s, values, occ, Enter(L, e, v, m).m)
    ensures Enter(L, e, v, m).Stuck? ==> L.elements[e].kind == Replication && v < 0
  {
    assert RowOk(L, s, e);
    match L.elements[e].kind
    case Replication =>
      if v >= 0 { ReplicationPays(L, s, values, occ, m, e, v); }
    case Union =>
      SelectPicks(L, s, e, v);
      var c := Select(L, L.elements[e].firstChild, NO_INDEX, v);
      assert RowOk(L, s, c);
      forall x: nat | 1 <= x < |L.elements|
        ensures Owed(L, s, e, v, x) == if x == c then 1 else 0
      {
        assert RowOk(L, s, x);
        if s.parent[x] == e && x != c {
          PicksUnique(L, s, if x < c then x else c, if x < c then c else x, v);
        }
      }
      DescendPays(L, s, values, occ, m, e, v, c);
    case Call =>
      var c := L.callables[L.elements[e].targetCallable].elementIndex;
      assert CallableOk(L, L.elements[e].targetCallable);
      DescendPays(L, s, values, occ, m, e, v, c);
    case _ => LeafPays(L, s, values, occ, m, e, v);
  }

  /** Popping or restarting a finished frame keeps the flow. */
  lemma FinishKeeps(L: Layout, s: Shape, values: seq<seq<int>>, occ: nat, m: Machine)
    requires WellFormed(L, s) && |values| == |L.bands| && Conserved(L, s, values, occ, m)
    requires m.frames != [] && m.frames[|m.frames| - 1].next == NO_INDEX
    ensures Step(L, values, m).Running? && Conserved(L, s, values, occ, Step(L, values, m).m)
  {
    var top := m.frames[|m.frames| - 1];
    assert FrameWell(L, s, top);
    assert RowOk(L, s, top.repeatStart);
    var n := Step(L, values, m).m;
    forall b: nat | b < |L.bands|
      ensures CursorOk(L, s, values, n, b)
    {
      assert CursorOk(L, s, values, m, b);
    }
    forall x: nat | 1 <= x < |L.elements|
      ensures RowConserved(L, s, values, occ, n, x)
    {
      assert RowConserved(L, s, values, occ, m, x);
      if top.remaining > 1 {
        PendingRepeat(L, s, top, x);
        PendingTop(s, m.frames, Frame(top.repeatStart, top.repeatStart, top.remaining - 1), x);
      }
    }
  }

  /** Every turn of the machine conserves the flow, for any values whatsoever. */
  lemma StepConserves(L: Layout, s: Shape, values: seq<seq<int>>, occ: nat, m: Machine)
    requires WellFormed(L, s) && |values| == |L.bands| && Conserved(L, s, values, occ, m) && m.frames != []
    ensures Step(L, values, m).Running? ==> Conserved(L, s, values, occ, Step(L, values, m).m)
    ensures Step(L, values, m).Stuck? ==>
              var e := m.frames[|m.frames| - 1].next;
              && e < |L.elements| && HasBand(L.elements[e]) && L.elements[e].bandIndex < |L.bands|
              && var b := L.elements[e].bandIndex;
              (m.cursor[b] >= |values[b]| || (L.elements[e].kind == Replication && values[b][m.cursor[b]] < 0))
  {
    var top := m.frames[|m.frames| - 1];
    assert FrameWell(L, s, top);
    var e := top.next;
    if e == NO_INDEX {
      FinishKeeps(L, s, values, occ, m);
    } else {
      assert RowOk(L, s, e);
      var b := L.elements[e].bandIndex;
      if HasBand(L.elements[e]) {
        if m.cursor[b] < |values[b]| {
          var v := values[b][m.cursor[b]];
          VisitOwes(L, s, values, occ, m, e, v);
          OwingWrite(L, s, values, occ, Moved(L, m, e), e, v);
          EnterPays(L, s, values, occ, Write(L.elements[e], v, Moved(L, m, e)), e, v);
        }
      } else {
        VisitOwes(L, s, values, occ, m, e, 0);
        EnterPays(L, s, values, occ, Moved(L, m, e), e, 0);
      }
    }
  }
}
