// Column-wise demand: how many values each band must hold, computed before any occurrence is
// executed. The bands are read in element order while an explicit stack carries repeat counts down.
module LayoutColumns {
  import opened Common
  import opened LayoutModel
  import opened LayoutMachine
  import opened LayoutFlow

  datatype DemandFrame = DemandFrame(next: nat, count: nat)

  /**
   * The reader in progress. `owners[k]` is the row whose children frame k walks over, and every row
   * read so far lies before `mark`; both are bookkeeping for the proof.
   */
  datatype Columns = Columns(
    values: seq<seq<int>>, demand: seq<nat>, frames: seq<DemandFrame>, owners: seq<nat>, mark: nat)

  //
  // Subtrees are intervals
  //

  function EndFrom(parent: seq<nat>, e: nat, j: nat): (r: nat)
    requires j <= |parent|
    ensures j <= r <= |parent|
    ensures r < |parent| ==> parent[r] < e
    ensures forall k :: j <= k < r ==> parent[k] >= e
    decreases |parent| - j
  {
    if j == |parent| || parent[j] < e then j else EndFrom(parent, e, j + 1)
  }

  /** The first row behind the subtree of row e. */
  function End(s: Shape, e: nat): (r: nat)
    requires e < |s.parent|
    ensures e < r <= |s.parent|
  {
    EndFrom(s.parent, e, e + 1)
  }

  lemma EndChild(L: Layout, s: Shape, e: nat, k: nat)
    requires WellFormed(L, s) && e < |L.elements| && 1 <= k < |L.elements| && s.parent[k] == e
    ensures e < k < End(s, e) && End(s, k) <= End(s, e)
  {
    assert RowOk(L, s, k);
    forall m: nat | e < m < k
      ensures s.parent[m] >= e
    {
      assert PairOk(L, s, m, k);
    }
  }

  lemma EndSibling(L: Layout, s: Shape, i: nat, j: nat)
    requires WellFormed(L, s) && 1 <= i < j < |L.elements| && s.parent[i] == s.parent[j]
    ensures End(s, i) <= j
  {
    assert RowOk(L, s, i);
  }

  //
  // The equations the reader maintains
  //

  /** How often the forward calls among the first n rows that target callable c are made. */
  function ForwardSum(L: Layout, demand: seq<nat>, c: nat, n: nat): nat
    requires |demand| == |L.elements| && n <= |L.elements|
  {
    if n == 0 then 0 else
    ForwardSum(L, demand, c, n - 1) +
      if L.elements[n - 1].kind == Call && !L.elements[n - 1].backwardCall && L.elements[n - 1].targetCallable == c
      then demand[n - 1] else 0
  }

  /** Like Flow, with the backward entries of each callable declared up front. */
  ghost function ColumnFlow(L: Layout, s: Shape, occurrences: nat, declared: seq<nat>,
                            values: seq<seq<int>>, demand: seq<nat>, e: nat): int
    requires WellFormed(L, s) && 1 <= e < |L.elements|
    requires |demand| == |L.elements| && |values| == |L.bands| && |declared| == |L.callables|
  {
    assert RowIndexed(L, e);
    if L.elements[e].kind == Callable then
      (if L.elements[e].callableIndex == 0 then occurrences else 0)
      + ForwardSum(L, demand, L.elements[e].callableIndex, |L.elements|)
      + declared[L.elements[e].callableIndex]
    else BodyFlow(L, s, occurrences, values, demand, e)
  }

  function Owed1(s: Shape, f: DemandFrame, owner: nat, x: nat): nat
    requires x < |s.parent|
  {
    if s.parent[x] == owner && f.next <= x then f.count else 0
  }

  /** The demand the stacked frames will still place on row x. */
  function StillOwed(s: Shape, frames: seq<DemandFrame>, owners: seq<nat>, x: nat): nat
    requires x < |s.parent| && |frames| == |owners|
  {
    if |frames| == 0 then 0 else
    StillOwed(s, frames[..|frames| - 1], owners[..|owners| - 1], x)
      + Owed1(s, frames[|frames| - 1], owners[|owners| - 1], x)
  }

  /** Row x belongs to the body of a callable that has not been read yet. */
  predicate Unread(L: Layout, s: Shape, started: nat, x: nat)
    requires |s.parent| == |L.elements| && x < |L.elements|
  {
    var p := s.parent[x];
    p < |L.elements| && L.elements[p].kind == Callable && L.elements[p].callableIndex >= started
  }

  datatype Context = Context(occurrences: nat, declared: seq<nat>, started: nat)

  ghost predicate Sized(L: Layout, ctx: Context, K: Columns) {
    && |K.values| == |L.bands| && |K.demand| == |L.elements| && |ctx.declared| == |L.callables|
    && |K.frames| == |K.owners|
  }

  /** Demand placed plus demand still owed equals the flow into row x, except for `debt`. */
  ghost predicate RowDemanded(L: Layout, s: Shape, ctx: Context, K: Columns, x: nat, debt: int)
    requires WellFormed(L, s) && Sized(L, ctx, K) && 1 <= x < |L.elements|
  {
    if Unread(L, s, ctx.started, x) then
      K.demand[x] == 0 && debt == 0 && StillOwed(s, K.frames, K.owners, x) == 0
    else
      K.demand[x] + StillOwed(s, K.frames, K.owners, x) + debt
        == ColumnFlow(L, s, ctx.occurrences, ctx.declared, K.values, K.demand, x)
  }

  /** Rows from the mark on have not been read. */
  ghost predicate Untouched(L: Layout, K: Columns, x: nat)
    requires x < |L.elements| == |K.demand| && |K.values| == |L.bands| && RowIndexed(L, x)
  {
    K.mark <= x && L.elements[x].kind != UnionCase && L.elements[x].kind != Callable ==>
      && K.demand[x] == 0
      && (HasBand(L.elements[x]) ==> K.values[L.elements[x].bandIndex] == [])
  }

  /** Frame k walks over the children of its owner, none of which from `next` on has been read. */
  ghost predicate DemandFrameOk(L: Layout, s: Shape, root: nat, f: DemandFrame, owner: nat, mark: nat)
    requires |s.parent| == |L.elements| && root < |L.elements|
  {
    && root <= owner < |L.elements| && Iterable(L, owner)
    && End(s, owner) <= End(s, root)
    && Within(f.next, |L.elements|)
    && (f.next != NO_INDEX ==> 1 <= f.next && s.parent[f.next] == owner && mark <= f.next)
    && (L.elements[owner].kind == Replication ==> owner < mark)
    && (L.elements[owner].kind == UnionCase ==> s.parent[owner] < mark)
    && (L.elements[owner].kind == Callable || L.elements[owner].kind == Sequence ==> owner == root)
  }

  /** A frame above walks over a subtree that ends before the frame below continues. */
  predicate StackedOk(s: Shape, below: DemandFrame, belowOwner: nat, aboveOwner: nat)
    requires aboveOwner < |s.parent|
  {
    && belowOwner != aboveOwner
    && (below.next != NO_INDEX ==> End(s, aboveOwner) <= below.next)
  }

  ghost predicate StackOk(L: Layout, s: Shape, root: nat, K: Columns)
    requires |s.parent| == |L.elements| && root < |L.elements|
  {
    && |K.frames| == |K.owners|
    && K.mark <= |L.elements| && (K.frames != [] ==> K.mark <= End(s, root))
    && (forall k :: 0 <= k < |K.frames| ==> DemandFrameOk(L, s, root, K.frames[k], K.owners[k], K.mark))
    && (forall a, b :: 0 <= a < b < |K.frames| ==> StackedOk(s, K.frames[a], K.owners[a], K.owners[b]))
  }

  ghost predicate ColumnsOk(L: Layout, s: Shape, ctx: Context, K: Columns)
    requires WellFormed(L, s)
  {
    && Sized(L, ctx, K)
    && (forall x: nat :: 1 <= x < |L.elements| ==> RowDemanded(L, s, ctx, K, x, 0))
    && (forall x: nat :: x < |L.elements| && RowIndexed(L, x) ==> Untouched(L, K, x))
    && (forall b: nat :: b < |L.bands| ==> BandBalanced(L, s, K.values, K.demand, b))
  }

  //
  // Reading one row
  //

  /** What reading row e, with n repetitions and the values vs, leaves owed to row x; cases from `lim` on are settled. */
  ghost function Debt(L: Layout, s: Shape, e: nat, n: nat, vs: seq<int>, lim: nat, x: nat): int
    requires WellFormed(L, s) && e < |L.elements| && x < |L.elements|
  {
    assert RowIndexed(L, e);
    match L.elements[e].kind
    case Replication => if x > 0 && s.parent[x] == e then Sum(vs) else 0
    case Union => if x > 0 && s.parent[x] == e && x < lim then CountPicks(L, s, x, vs) else 0
    case Call =>
      if !L.elements[e].backwardCall && x == L.callables[L.elements[e].targetCallable].elementIndex then n else 0
    case _ => 0
  }

  ghost predicate ColumnsShort(L: Layout, s: Shape, ctx: Context, K: Columns, e: nat, n: nat, vs: seq<int>, lim: nat)
    requires WellFormed(L, s) && e < |L.elements|
  {
    && Sized(L, ctx, K)
    && (forall x: nat :: 1 <= x < |L.elements| ==> RowDemanded(L, s, ctx, K, x, Debt(L, s, e, n, vs, lim, x)))
    && (forall x: nat :: x < |L.elements| && RowIndexed(L, x) ==> Untouched(L, K, x))
    && (forall b: nat :: b < |L.bands| ==> BandBalanced(L, s, K.values, K.demand, b))
  }

  /** The reader after it stored the values of row e, at which the top frame stands. */
  ghost function Read(L: Layout, K: Columns, e: nat, vs: seq<int>): Columns
    requires |K.frames| == |K.owners| > 0 && e < |L.elements| == |K.demand| && |K.values| == |L.bands|
    requires HasBand(L.elements[e]) ==> L.elements[e].bandIndex < |L.bands|
  {
    var top := K.frames[|K.frames| - 1];
    Columns(
      if HasBand(L.elements[e]) then K.values[L.elements[e].bandIndex := vs] else K.values,
      K.demand[e := top.count],
      K.frames[..|K.frames| - 1] + [top.(next := L.elements[e].nextSibling)],
      K.owners,
      e + 1)
  }

  lemma {:induction false} ForwardSumUpdate(L: Layout, demand: seq<nat>, e: nat, v: nat, c: nat, n: nat)
    requires |demand| == |L.elements| && n <= |L.elements| && e < |L.elements|
    ensures ForwardSum(L, demand[e := v], c, n) == ForwardSum(L, demand, c, n)
      + if e < n && L.elements[e].kind == Call && !L.elements[e].backwardCall && L.elements[e].targetCallable == c
        then v - demand[e] else 0
  {
    if n > 0 { ForwardSumUpdate(L, demand, e, v, c, n - 1); }
  }

  lemma StillOwedPush(s: Shape, frames: seq<DemandFrame>, owners: seq<nat>, f: DemandFrame, owner: nat, x: nat)
    requires x < |s.parent| && |frames| == |owners|
    ensures StillOwed(s, frames + [f], owners + [owner], x) == StillOwed(s, frames, owners, x) + Owed1(s, f, owner, x)
  {
    assert (frames + [f])[..|frames|] == frames && (owners + [owner])[..|owners|] == owners;
  }

  /** Moving the top frame past row e settles what it owed e and nothing else. */
  lemma StillOwedAdvance(L: Layout, s: Shape, K: Columns, e: nat, x: nat)
    requires WellFormed(L, s) && |K.frames| == |K.owners| > 0 && 1 <= e < |L.elements| && 1 <= x < |L.elements|
    requires K.frames[|K.frames| - 1].next == e && s.parent[e] == K.owners[|K.owners| - 1]
    ensures var top := K.frames[|K.frames| - 1];
      StillOwed(s, K.frames[..|K.frames| - 1] + [top.(next := L.elements[e].nextSibling)], K.owners, x)
        == StillOwed(s, K.frames, K.owners, x) - if x == e then top.count else 0
  {
    var n := |K.frames| - 1;
    var top := K.frames[n];
    assert RowOk(L, s, e) && RowOk(L, s, x);
    if e < x { assert PairOk(L, s, e, x); }
    StillOwedPush(s, K.frames[..n], K.owners[..n], top.(next := L.elements[e].nextSibling), K.owners[n], x);
    assert K.owners[..n] + [K.owners[n]] == K.owners;
  }

  /** Storing the values of row e changes the flow into other rows by what e then owes them. */
  lemma BodyFlowRead(L: Layout, s: Shape, ctx: Context, K: Columns, e: nat, vs: seq<int>, n: nat, x: nat)
    requires WellFormed(L, s) && Sized(L, ctx, K) && 1 <= e < |L.elements| && 1 <= x < |L.elements|
    requires L.elements[e].kind != UnionCase && L.elements[e].kind != Callable && L.elements[x].kind != Callable
    requires HasBand(L.elements[e]) ==> L.elements[e].bandIndex < |L.bands| && K.values[L.elements[e].bandIndex] == []
    ensures BodyFlow(L, s, ctx.occurrences,
                     if HasBand(L.elements[e]) then K.values[L.elements[e].bandIndex := vs] else K.values,
                     K.demand[e := n], x)
         == BodyFlow(L, s, ctx.occurrences, K.values, K.demand, x)
            + if L.elements[e].kind == Call then 0 else Debt(L, s, e, n, vs, |L.elements|, x)
  {
    assert RowOk(L, s, x) && RowOk(L, s, e);
    assert RowOk(L, s, s.parent[x]);
  }

  lemma ReadRowDemand(L: Layout, s: Shape, ctx: Context, K: Columns, e: nat, vs: seq<int>, x: nat)
    requires WellFormed(L, s) && Sized(L, ctx, K) && K.frames != []
    requires 1 <= e < |L.elements| && 1 <= x < |L.elements| && RowIndexed(L, e)
    requires K.frames[|K.frames| - 1].next == e && s.parent[e] == K.owners[|K.owners| - 1]
    requires L.elements[e].kind != UnionCase && L.elements[e].kind != Callable
    requires K.demand[e] == 0 && (HasBand(L.elements[e]) ==> K.values[L.elements[e].bandIndex] == [])
    requires !Unread(L, s, ctx.started, e) && RowDemanded(L, s, ctx, K, x, 0)
    ensures Sized(L, ctx, Read(L, K, e, vs))
    ensures RowDemanded(L, s, ctx, Read(L, K, e, vs), x,
                        Debt(L, s, e, K.frames[|K.frames| - 1].count, vs, |L.elements|, x))
  {
    hide StillOwed; hide ForwardSum; hide CountPicks; hide Sum;
    var n := K.frames[|K.frames| - 1].count;
    assert RowOk(L, s, x) && RowOk(L, s, e);
    StillOwedAdvance(L, s, K, e, x);
    if L.elements[x].kind == Callable {
      hide BodyFlow;
      ForwardSumUpdate(L, K.demand, e, n, L.elements[x].callableIndex, |L.elements|);
      if L.elements[e].kind == Call {
        assert CallableOk(L, L.elements[e].targetCallable);
      }
      assert RowOk(L, s, s.parent[x]);
    } else {
      hide BodyFlow;
      BodyFlowRead(L, s, ctx, K, e, vs, n, x);
      if L.elements[e].kind == Call {
        assert CallableOk(L, L.elements[e].targetCallable);
      }
    }
  }

  /** Reading row e: the whole table is short by what e owes. */
  lemma ReadRow(L: Layout, s: Shape, ctx: Context, root: nat, K: Columns, e: nat, vs: seq<int>)
    requires WellFormed(L, s) && ColumnsOk(L, s, ctx, K) && root < |L.elements| && StackOk(L, s, root, K)
    requires K.frames != [] && K.frames[|K.frames| - 1].next == e && e < |L.elements| && !Unread(L, s, ctx.started, e)
    requires RowIndexed(L, e) && L.elements[e].kind != UnionCase && L.elements[e].kind != Callable
    requires HasBand(L.elements[e]) ==> |vs| == K.frames[|K.frames| - 1].count
    requires L.elements[e].kind == Replication ==> forall k :: 0 <= k < |vs| ==> vs[k] >= 0
    ensures ColumnsShort(L, s, ctx, Read(L, K, e, vs), e, K.frames[|K.frames| - 1].count, vs, |L.elements|)
  {
    var n := K.frames[|K.frames| - 1].count;
    var K1 := Read(L, K, e, vs);
    assert DemandFrameOk(L, s, root, K.frames[|K.frames| - 1], K.owners[|K.owners| - 1], K.mark);
    assert Untouched(L, K, e) && RowOk(L, s, e);
    forall x: nat | 1 <= x < |L.elements|
      ensures RowDemanded(L, s, ctx, K1, x, Debt(L, s, e, n, vs, |L.elements|, x))
    {
      hide RowDemanded; hide Debt;
      assert RowDemanded(L, s, ctx, K, x, 0);
      ReadRowDemand(L, s, ctx, K, e, vs, x);
    }
    forall x: nat | x < |L.elements| && RowIndexed(L, x)
      ensures Untouched(L, K1, x)
    {
      assert Untouched(L, K, x);
      assert RowOk(L, s, x);
    }
    forall b: nat | b < |L.bands|
      ensures BandBalanced(L, s, K1.values, K1.demand, b)
    {
      assert BandBalanced(L, s, K.values, K.demand, b) && BandOk(L, s, b);
    }
  }

  /** After reading row e the stack is sound, and whatever is pushed below e fits on top of it. */
  lemma ReadStack(L: Layout, s: Shape, root: nat, K: Columns, e: nat, vs: seq<int>)
    requires WellFormed(L, s) && root < |L.elements| && StackOk(L, s, root, K)
    requires |K.demand| == |L.elements| && |K.values| == |L.bands|
    requires K.frames != [] && K.frames[|K.frames| - 1].next == e && e < |L.elements|
    requires HasBand(L.elements[e]) ==> L.elements[e].bandIndex < |L.bands|
    ensures StackOk(L, s, root, Read(L, K, e, vs))
    ensures root <= e && End(s, e) <= End(s, root) && K.mark <= e
    ensures forall k :: 0 <= k < |K.frames| ==>
              && StackedOk(s, Read(L, K, e, vs).frames[k], K.owners[k], e)
              && (L.elements[K.owners[k]].kind == UnionCase ==> s.parent[K.owners[k]] != e)
  {
    hide End;
    var n := |K.frames| - 1;
    var top := K.frames[n];
    var o := K.owners[n];
    var K1 := Read(L, K, e, vs);
    assert DemandFrameOk(L, s, root, top, o, K.mark);
    assert RowOk(L, s, e);
    EndChild(L, s, o, e);
    var sibling := L.elements[e].nextSibling;
    if sibling != NO_INDEX { EndSibling(L, s, e, sibling); }
    forall k | 0 <= k < |K1.frames|
      ensures DemandFrameOk(L, s, root, K1.frames[k], K1.owners[k], K1.mark)
      ensures StackedOk(s, K1.frames[k], K.owners[k], e)
      ensures L.elements[K.owners[k]].kind == UnionCase ==> s.parent[K.owners[k]] != e
    {
      assert DemandFrameOk(L, s, root, K.frames[k], K.owners[k], K.mark);
      if k < n {
        assert StackedOk(s, K.frames[k], K.owners[k], K.owners[n]);
      }
    }
    forall a, b | 0 <= a < b < |K1.frames|
      ensures StackedOk(s, K1.frames[a], K1.owners[a], K1.owners[b])
    {
      assert StackedOk(s, K.frames[a], K.owners[a], K.owners[b]);
    }
  }

  function PushFrame(K: Columns, body: nat, count: nat, owner: nat): Columns {
    K.(frames := K.frames + [DemandFrame(body, count)], owners := K.owners + [owner])
  }

  lemma PushStack(L: Layout, s: Shape, root: nat, K: Columns, body: nat, count: nat, owner: nat)
    requires |s.parent| == |L.elements| && root < |L.elements| && StackOk(L, s, root, K)
    requires DemandFrameOk(L, s, root, DemandFrame(body, count), owner, K.mark) && K.mark <= End(s, root)
    requires forall k :: 0 <= k < |K.frames| ==> StackedOk(s, K.frames[k], K.owners[k], owner)
    ensures StackOk(L, s, root, PushFrame(K, body, count, owner))
  {
    hide End;
    var K1 := PushFrame(K, body, count, owner);
    forall a, b | 0 <= a < b < |K1.frames|
      ensures StackedOk(s, K1.frames[a], K1.owners[a], K1.owners[b])
    {
      if b < |K.frames| {
        assert StackedOk(s, K.frames[a], K.owners[a], K.owners[b]);
      }
    }
  }

  /** A frame over the children of `owner` owes each of them `count` and no one else anything. */
  lemma OwedChildren(L: Layout, s: Shape, owner: nat, count: nat, x: nat)
    requires WellFormed(L, s) && owner < |L.elements| && 1 <= x < |L.elements|
    requires L.elements[owner].firstChild != NO_INDEX
    ensures Owed1(s, DemandFrame(L.elements[owner].firstChild, count), owner, x)
         == if s.parent[x] == owner then count else 0
  {
    assert RowOk(L, s, x);
    if owner < x { assert PairOk(L, s, owner, x); }
  }

  ghost function PayRepeats(L: Layout, K: Columns, e: nat, vs: seq<int>): Columns
    requires e < |L.elements| && Sum(vs) >= 0
  {
    if L.elements[e].firstChild == NO_INDEX then K
    else PushFrame(K, L.elements[e].firstChild, Sum(vs), e)
  }

  lemma RepeatsPaid(L: Layout, s: Shape, ctx: Context, root: nat, K: Columns, e: nat, n: nat, vs: seq<int>)
    requires WellFormed(L, s) && e < |L.elements| && L.elements[e].kind == Replication && Sum(vs) >= 0
    requires ColumnsShort(L, s, ctx, K, e, n, vs, |L.elements|)
    requires root < |L.elements| && StackOk(L, s, root, K) && K.mark == e + 1
    requires root <= e && End(s, e) <= End(s, root)
    requires forall k :: 0 <= k < |K.frames| ==> StackedOk(s, K.frames[k], K.owners[k], e)
    ensures ColumnsOk(L, s, ctx, PayRepeats(L, K, e, vs)) && StackOk(L, s, root, PayRepeats(L, K, e, vs))
  {
    hide End; hide Sum; hide StillOwed; hide ColumnFlow;
    var K1 := PayRepeats(L, K, e, vs);
    var body := L.elements[e].firstChild;
    assert RowOk(L, s, e);
    if body != NO_INDEX {
      PushStack(L, s, root, K, body, Sum(vs), e);
    }
    forall x: nat | 1 <= x < |L.elements|
      ensures RowDemanded(L, s, ctx, K1, x, 0)
    {
      assert RowDemanded(L, s, ctx, K, x, Debt(L, s, e, n, vs, |L.elements|, x));
      if body == NO_INDEX {
        Childless(L, s, e, x);
      } else {
        OwedChildren(L, s, e, Sum(vs), x);
        StillOwedPush(s, K.frames, K.owners, DemandFrame(body, Sum(vs)), e, x);
      }
    }
    forall x: nat | x < |L.elements| && RowIndexed(L, x)
      ensures Untouched(L, K1, x)
    {
      assert Untouched(L, K, x);
    }
  }

  ghost function PayCall(L: Layout, K: Columns, e: nat, n: nat): Columns
    requires e < |L.elements| && L.elements[e].targetCallable < |L.callables|
    requires L.callables[L.elements[e].targetCallable].elementIndex < |K.demand|
  {
    var t := L.callables[L.elements[e].targetCallable].elementIndex;
    if L.elements[e].backwardCall then K else K.(demand := K.demand[t := K.demand[t] + n])
  }

  /** A call adds its demand to the callable it targets, whose body has not been read yet. */
  lemma CallPaid(L: Layout, s: Shape, ctx: Context, root: nat, K: Columns, e: nat, n: nat, vs: seq<int>)
    requires WellFormed(L, s) && e < |L.elements| && L.elements[e].kind == Call && RowIndexed(L, e)
    requires ColumnsShort(L, s, ctx, K, e, n, vs, |L.elements|)
    requires root < |L.elements| && StackOk(L, s, root, K)
    requires !L.elements[e].backwardCall ==> ctx.started <= L.elements[e].targetCallable
    ensures RowIndexed(L, e) && CallableOk(L, L.elements[e].targetCallable)
    ensures ColumnsOk(L, s, ctx, PayCall(L, K, e, n)) && StackOk(L, s, root, PayCall(L, K, e, n))
  {
    hide End; hide StillOwed; hide ForwardSum; hide CountPicks; hide Sum;
    assert CallableOk(L, L.elements[e].targetCallable);
    var t := L.callables[L.elements[e].targetCallable].elementIndex;
    var K1 := PayCall(L, K, e, n);
    forall x: nat | 1 <= x < |L.elements|
      ensures RowDemanded(L, s, ctx, K1, x, 0)
    {
      assert RowDemanded(L, s, ctx, K, x, Debt(L, s, e, n, vs, |L.elements|, x));
      assert RowOk(L, s, x) && RowOk(L, s, t) && RowOk(L, s, s.parent[x]);
      ForwardSumUpdate(L, K.demand, t, K.demand[t] + n, L.elements[x].callableIndex, |L.elements|);
    }
    forall x: nat | x < |L.elements| && RowIndexed(L, x)
      ensures Untouched(L, K1, x)
    {
      assert Untouched(L, K, x);
    }
    forall b: nat | b < |L.bands|
      ensures BandBalanced(L, s, K1.values, K1.demand, b)
    {
      assert BandBalanced(L, s, K.values, K.demand, b) && BandOk(L, s, b);
    }
  }

  lemma LeafPaid(L: Layout, s: Shape, ctx: Context, K: Columns, e: nat, n: nat, vs: seq<int>)
    requires WellFormed(L, s) && e < |L.elements| && ColumnsShort(L, s, ctx, K, e, n, vs, |L.elements|)
    requires L.elements[e].kind != Replication && L.elements[e].kind != Union && L.elements[e].kind != Call
    ensures ColumnsOk(L, s, ctx, K)
  {
    forall x: nat | 1 <= x < |L.elements|
      ensures RowDemanded(L, s, ctx, K, x, 0)
    {
      assert RowDemanded(L, s, ctx, K, x, Debt(L, s, e, n, vs, |L.elements|, x));
    }
  }

  //
  // Settling the cases of a union, last case first
  //

  /** Demand of case row c, and a frame for its body when it is not empty. */
  ghost function PayCase(L: Layout, s: Shape, K: Columns, vs: seq<int>, c: nat): (r: Columns)
    requires Indexed(L) && |s.parent| == |L.elements| && c < |L.elements| == |K.demand|
    ensures |r.demand| == |K.demand|
  {
    var count := CountPicks(L, s, c, vs);
    var K1 := K.(demand := K.demand[c := K.demand[c] + count]);
    if L.elements[c].firstChild != NO_INDEX && count != 0 then PushFrame(K1, L.elements[c].firstChild, count, c) else K1
  }

  ghost function PayCases(L: Layout, s: Shape, K: Columns, vs: seq<int>, c: nat): (r: Columns)
    requires Indexed(L) && |s.parent| == |L.elements| == |K.demand| && Within(c, |L.elements|)
    ensures |r.demand| == |K.demand|
    decreases if c == NO_INDEX then 0 else |L.elements| - c
  {
    if c == NO_INDEX then K else
    assert RowIndexed(L, c);
    PayCase(L, s, PayCases(L, s, K, vs, L.elements[c].nextSibling), vs, c)
  }

  /** The body of every case of e before `lim` would fit on top of the stack. */
  ghost predicate CasesFit(L: Layout, s: Shape, K: Columns, e: nat, lim: nat)
    requires |s.parent| == |L.elements| && |K.frames| == |K.owners|
  {
    forall k, d: nat :: 0 <= k < |K.frames| && 1 <= d < |L.elements| && d < lim && s.parent[d] == e ==>
      StackedOk(s, K.frames[k], K.owners[k], d)
  }

  lemma CasesFitFirst(L: Layout, s: Shape, root: nat, K: Columns, e: nat)
    requires WellFormed(L, s) && e < |L.elements| && L.elements[e].kind == Union && |K.frames| == |K.owners|
    requires root < |L.elements| && StackOk(L, s, root, K)
    requires forall k :: 0 <= k < |K.frames| ==>
               && StackedOk(s, K.frames[k], K.owners[k], e)
               && (L.elements[K.owners[k]].kind == UnionCase ==> s.parent[K.owners[k]] != e)
    ensures CasesFit(L, s, K, e, |L.elements|)
  {
    hide End;
    forall k, d: nat | 0 <= k < |K.frames| && 1 <= d < |L.elements| && s.parent[d] == e
      ensures StackedOk(s, K.frames[k], K.owners[k], d)
    {
      assert RowOk(L, s, d);
      EndChild(L, s, e, d);
      assert StackedOk(s, K.frames[k], K.owners[k], e);
      assert DemandFrameOk(L, s, root, K.frames[k], K.owners[k], K.mark);
    }
  }

  lemma CaseStack(L: Layout, s: Shape, root: nat, K: Columns, e: nat, vs: seq<int>, c: nat, lim: nat)
    requires WellFormed(L, s) && e < |L.elements| && L.elements[e].kind == Union && |K.demand| == |L.elements|
    requires root < |L.elements| && StackOk(L, s, root, K) && K.mark == e + 1
    requires root <= e && End(s, e) <= End(s, root)
    requires 1 <= c < |L.elements| && c < lim && s.parent[c] == e && CasesFit(L, s, K, e, lim)
    ensures StackOk(L, s, root, PayCase(L, s, K, vs, c)) && CasesFit(L, s, PayCase(L, s, K, vs, c), e, c)
    ensures PayCase(L, s, K, vs, c).mark == K.mark
  {
    hide End; hide CountPicks;
    assert RowOk(L, s, c);
    EndChild(L, s, e, c);
    var count := CountPicks(L, s, c, vs);
    var body := L.elements[c].firstChild;
    var K1 := PayCase(L, s, K, vs, c);
    if body != NO_INDEX && count != 0 {
      assert RowOk(L, s, body);
      PushStack(L, s, root, K.(demand := K.demand[c := K.demand[c] + count]), body, count, c);
    }
    forall k, d: nat | 0 <= k < |K1.frames| && 1 <= d < |L.elements| && d < c && s.parent[d] == e
      ensures StackedOk(s, K1.frames[k], K1.owners[k], d)
    {
      if k < |K.frames| {
        assert StackedOk(s, K.frames[k], K.owners[k], d);
      } else {
        EndSibling(L, s, d, c);
      }
    }
  }

  lemma CaseRow(L: Layout, s: Shape, ctx: Context, K: Columns, e: nat, n: nat, vs: seq<int>, c: nat, lim: nat, x: nat)
    requires WellFormed(L, s) && e < |L.elements| && L.elements[e].kind == Union && Sized(L, ctx, K)
    requires 1 <= c < |L.elements| && c < lim && s.parent[c] == e && 1 <= x < |L.elements|
    requires c < x && s.parent[x] == e ==> lim <= x
    requires RowDemanded(L, s, ctx, K, x, Debt(L, s, e, n, vs, lim, x))
    ensures Sized(L, ctx, PayCase(L, s, K, vs, c))
    ensures RowDemanded(L, s, ctx, PayCase(L, s, K, vs, c), x, Debt(L, s, e, n, vs, c, x))
  {
    hide StillOwed; hide ForwardSum; hide CountPicks; hide Sum;
    var count := CountPicks(L, s, c, vs);
    var body := L.elements[c].firstChild;
    assert RowOk(L, s, c) && RowOk(L, s, x) && RowOk(L, s, s.parent[x]);
    ForwardSumUpdate(L, K.demand, c, K.demand[c] + count, L.elements[x].callableIndex, |L.elements|);
    if body == NO_INDEX {
      Childless(L, s, c, x);
    } else if count != 0 {
      OwedChildren(L, s, c, count, x);
      StillOwedPush(s, K.frames, K.owners, DemandFrame(body, count), c, x);
    }
  }

  /** Settling one case moves the settled limit down to it. */
  lemma CasePaid(L: Layout, s: Shape, ctx: Context, K: Columns, e: nat, n: nat, vs: seq<int>, c: nat, lim: nat)
    requires WellFormed(L, s) && e < |L.elements| && L.elements[e].kind == Union
    requires ColumnsShort(L, s, ctx, K, e, n, vs, lim)
    requires 1 <= c < |L.elements| && c < lim && s.parent[c] == e
    requires forall d: nat :: c < d < |L.elements| && s.parent[d] == e ==> lim <= d
    ensures ColumnsShort(L, s, ctx, PayCase(L, s, K, vs, c), e, n, vs, c)
  {
    hide CountPicks; hide Debt;
    var K1 := PayCase(L, s, K, vs, c);
    assert RowOk(L, s, c);
    forall x: nat | 1 <= x < |L.elements|
      ensures RowDemanded(L, s, ctx, K1, x, Debt(L, s, e, n, vs, c, x))
    {
      hide RowDemanded; hide PayCase;
      assert RowDemanded(L, s, ctx, K, x, Debt(L, s, e, n, vs, lim, x));
      CaseRow(L, s, ctx, K, e, n, vs, c, lim, x);
    }
    forall x: nat | x < |L.elements| && RowIndexed(L, x)
      ensures Untouched(L, K1, x)
    {
      assert Untouched(L, K, x);
    }
    forall b: nat | b < |L.bands|
      ensures BandBalanced(L, s, K1.values, K1.demand, b)
    {
      assert BandBalanced(L, s, K.values, K.demand, b) && BandOk(L, s, b);
    }
  }

  lemma {:induction false} CasesPaidFrom(L: Layout, s: Shape, ctx: Context, root: nat, K: Columns, e: nat, n: nat,
                                         vs: seq<int>, c: nat)
    requires WellFormed(L, s) && e < |L.elements| && L.elements[e].kind == Union && |K.demand| == |L.elements|
    requires ColumnsShort(L, s, ctx, K, e, n, vs, |L.elements|)
    requires root < |L.elements| && StackOk(L, s, root, K) && K.mark == e + 1
    requires root <= e && End(s, e) <= End(s, root)
    requires CasesFit(L, s, K, e, |L.elements|)
    requires 1 <= c < |L.elements| && s.parent[c] == e
    ensures var r := PayCases(L, s, K, vs, c);
      && ColumnsShort(L, s, ctx, r, e, n, vs, c) && StackOk(L, s, root, r)
      && CasesFit(L, s, r, e, c) && r.mark == K.mark
    decreases |L.elements| - c
  {
    hide ColumnsShort; hide StackOk; hide CasesFit; hide PayCase; hide End;
    assert RowOk(L, s, c) && RowIndexed(L, c);
    var next := L.elements[c].nextSibling;
    assert RowIndexed(L, c);
    var lim := if next == NO_INDEX then |L.elements| else next;
    if next != NO_INDEX {
      CasesPaidFrom(L, s, ctx, root, K, e, n, vs, next);
    }
    forall d: nat | c < d < |L.elements| && s.parent[d] == e
      ensures lim <= d
    {
      assert PairOk(L, s, c, d);
    }
    var K1 := PayCases(L, s, K, vs, next);
    CasePaid(L, s, ctx, K1, e, n, vs, c, lim);
    CaseStack(L, s, root, K1, e, vs, c, lim);
  }

  lemma CasesPaid(L: Layout, s: Shape, ctx: Context, root: nat, K: Columns, e: nat, n: nat, vs: seq<int>)
    requires WellFormed(L, s) && e < |L.elements| && L.elements[e].kind == Union && |K.demand| == |L.elements|
    requires ColumnsShort(L, s, ctx, K, e, n, vs, |L.elements|)
    requires root < |L.elements| && StackOk(L, s, root, K) && K.mark == e + 1
    requires root <= e && End(s, e) <= End(s, root)
    requires CasesFit(L, s, K, e, |L.elements|)
    ensures Within(L.elements[e].firstChild, |L.elements|)
    ensures ColumnsOk(L, s, ctx, PayCases(L, s, K, vs, L.elements[e].firstChild))
    ensures StackOk(L, s, root, PayCases(L, s, K, vs, L.elements[e].firstChild))
  {
    hide StackOk; hide CasesFit; hide End; hide PayCases; hide CountPicks;
    assert RowOk(L, s, e);
    var c := L.elements[e].firstChild;
    CasesPaidFrom(L, s, ctx, root, K, e, n, vs, c);
    var r := PayCases(L, s, K, vs, c);
    forall x: nat | 1 <= x < |L.elements|
      ensures RowDemanded(L, s, ctx, r, x, 0)
    {
      assert RowDemanded(L, s, ctx, r, x, Debt(L, s, e, n, vs, c, x));
      assert RowOk(L, s, x);
      if e < x { assert PairOk(L, s, e, x); }
    }
  }

  //
  // Starting and finishing
  //

  lemma PopColumn(L: Layout, s: Shape, ctx: Context, root: nat, K: Columns)
    requires WellFormed(L, s) && ColumnsOk(L, s, ctx, K) && root < |L.elements| && StackOk(L, s, root, K)
    requires K.frames != [] && K.frames[|K.frames| - 1].next == NO_INDEX
    ensures var n := |K.frames| - 1;
            var K1 := K.(frames := K.frames[..n], owners := K.owners[..n]);
            ColumnsOk(L, s, ctx, K1) && StackOk(L, s, root, K1)
  {
    hide End; hide ColumnFlow;
    var n := |K.frames| - 1;
    var K1 := K.(frames := K.frames[..n], owners := K.owners[..n]);
    forall x: nat | 1 <= x < |L.elements|
      ensures RowDemanded(L, s, ctx, K1, x, 0)
    {
      assert RowDemanded(L, s, ctx, K, x, 0);
    }
    forall x: nat | x < |L.elements| && RowIndexed(L, x)
      ensures Untouched(L, K1, x)
    {
      assert Untouched(L, K, x);
    }
    forall a, b | 0 <= a < b < |K1.frames|
      ensures StackedOk(s, K1.frames[a], K1.owners[a], K1.owners[b])
    {
      assert StackedOk(s, K.frames[a], K.owners[a], K.owners[b]);
    }
  }

  /** The frames never outnumber the rows. */
  lemma StackBounded(L: Layout, s: Shape, root: nat, K: Columns)
    requires |s.parent| == |L.elements| && root < |L.elements| && StackOk(L, s, root, K)
    ensures |K.frames| <= |L.elements|
  {
    hide End;
    forall i, j | 0 <= i < j < |K.owners|
      ensures K.owners[i] != K.owners[j]
    {
      assert StackedOk(s, K.frames[i], K.owners[i], K.owners[j]);
    }
    forall i | 0 <= i < |K.owners|
      ensures K.owners[i] < |L.elements|
    {
      assert DemandFrameOk(L, s, root, K.frames[i], K.owners[i], K.mark);
    }
    DistinctBounded(K.owners, |L.elements|);
  }

  ghost function InitialDemand(L: Layout, ctx: Context, i: nat): nat
    requires Indexed(L) && |ctx.declared| == |L.callables| && i < |L.elements|
  {
    assert RowIndexed(L, i);
    if L.elements[i].kind == Callable then
      ctx.declared[L.elements[i].callableIndex] + (if L.elements[i].callableIndex == 0 then ctx.occurrences else 0)
    else 0
  }

  /** Before anything is read: each callable is owed its declared entries, the first also each occurrence. */
  ghost function Initial(L: Layout, ctx: Context): (K: Columns)
    requires Indexed(L) && |ctx.declared| == |L.callables|
    ensures |K.values| == |L.bands| && |K.demand| == |L.elements| && |K.frames| == |K.owners|
  {
    Columns(
      seq(|L.bands|, _ => []),
      seq(|L.elements|, i requires 0 <= i < |L.elements| => InitialDemand(L, ctx, i)),
      [], [], 0)
  }

  lemma {:induction false} ForwardSumZero(L: Layout, demand: seq<nat>, c: nat, n: nat)
    requires |demand| == |L.elements| && n <= |L.elements|
    requires forall i :: 0 <= i < n && L.elements[i].kind == Call ==> demand[i] == 0
    ensures ForwardSum(L, demand, c, n) == 0
  {
    if n > 0 { ForwardSumZero(L, demand, c, n - 1); }
  }

  /** Rows of the initial table satisfy their equations; without callables the top level is still owed. */
  lemma InitialRow(L: Layout, s: Shape, ctx: Context, x: nat)
    requires WellFormed(L, s) && |ctx.declared| == |L.callables| && ctx.started == 0 && 1 <= x < |L.elements|
    ensures var K := Initial(L, ctx);
            RowDemanded(L, s, ctx, K, x, if |L.callables| == 0 && s.parent[x] == 0 then ctx.occurrences else 0)
  {
    var K := Initial(L, ctx);
    assert RowOk(L, s, x) && RowOk(L, s, s.parent[x]);
    ForwardSumZero(L, K.demand, L.elements[x].callableIndex, |L.elements|);
  }

  lemma InitialRest(L: Layout, s: Shape, ctx: Context)
    requires WellFormed(L, s) && |ctx.declared| == |L.callables|
    ensures var K := Initial(L, ctx);
      && (forall x: nat :: x < |L.elements| && RowIndexed(L, x) ==> Untouched(L, K, x))
      && (forall b: nat :: b < |L.bands| ==> BandBalanced(L, s, K.values, K.demand, b))
  {
    var K := Initial(L, ctx);
    forall b: nat | b < |L.bands|
      ensures BandBalanced(L, s, K.values, K.demand, b)
    {
      assert BandOk(L, s, b);
    }
  }

  /** A layout without callables is read from its top level down. */
  lemma InitialTop(L: Layout, s: Shape, ctx: Context)
    requires WellFormed(L, s) && L.callables == [] && ctx.declared == [] && ctx.started == 0
    ensures var K := Initial(L, ctx);
            var body := L.elements[0].firstChild;
            var K1 := if body == NO_INDEX then K else PushFrame(K, body, ctx.occurrences, 0);
            ColumnsOk(L, s, ctx, K1) && StackOk(L, s, 0, K1)
  {
    hide RowDemanded; hide Initial; hide ColumnFlow; hide Unread;
    var K := Initial(L, ctx);
    var body := L.elements[0].firstChild;
    assert RowOk(L, s, 0);
    InitialRest(L, s, ctx);
    InitialShape(L, ctx);
    var K1 := if body == NO_INDEX then K else PushFrame(K, body, ctx.occurrences, 0);
    forall x: nat | 1 <= x < |L.elements|
      ensures RowDemanded(L, s, ctx, K1, x, 0)
    {
      TopRow(L, s, ctx, x);
    }
    forall x: nat | x < |L.elements| && RowIndexed(L, x)
      ensures Untouched(L, K1, x)
    {
      assert Untouched(L, K, x);
    }
  }

  lemma InitialShape(L: Layout, ctx: Context)
    requires Indexed(L) && |ctx.declared| == |L.callables|
    ensures Initial(L, ctx).frames == [] && Initial(L, ctx).owners == [] && Initial(L, ctx).mark == 0
    ensures Initial(L, ctx).values == seq(|L.bands|, _ => [])
  {
  }

  lemma TopRow(L: Layout, s: Shape, ctx: Context, x: nat)
    requires WellFormed(L, s) && L.callables == [] && ctx.declared == [] && ctx.started == 0 && 1 <= x < |L.elements|
    ensures var K := Initial(L, ctx);
            var body := L.elements[0].firstChild;
            var K1 := if body == NO_INDEX then K else PushFrame(K, body, ctx.occurrences, 0);
            RowDemanded(L, s, ctx, K1, x, 0)
  {
    hide Initial; hide ColumnFlow;
    var K := Initial(L, ctx);
    var body := L.elements[0].firstChild;
    InitialRow(L, s, ctx, x);
    InitialShape(L, ctx);
    assert RowOk(L, s, x) && RowIndexed(L, s.parent[x]);
    if body == NO_INDEX {
      Childless(L, s, 0, x);
    } else {
      OwedChildren(L, s, 0, ctx.occurrences, x);
      StillOwedPush(s, [], [], DemandFrame(body, ctx.occurrences), 0, x);
    }
  }

  /** With callables nothing is owed until the first callable is read. */
  lemma InitialCallables(L: Layout, s: Shape, ctx: Context)
    requires WellFormed(L, s) && L.callables != [] && |ctx.declared| == |L.callables| && ctx.started == 0
    ensures ColumnsOk(L, s, ctx, Initial(L, ctx))
  {
    hide RowDemanded; hide Initial;
    InitialRest(L, s, ctx);
    var K := Initial(L, ctx);
    forall x: nat | 1 <= x < |L.elements|
      ensures RowDemanded(L, s, ctx, K, x, 0)
    {
      InitialRow(L, s, ctx, x);
    }
  }

  /** Begin reading the body of callable c: its rows are now owed the callable's entries. */
  ghost function Begin(L: Layout, K: Columns, row: nat): Columns
    requires row < |L.elements| == |K.demand|
  {
    var body := L.elements[row].firstChild;
    if body == NO_INDEX then K else PushFrame(K, body, K.demand[row], row)
  }

  lemma BeginRow(L: Layout, s: Shape, ctx: Context, K: Columns, x: nat)
    requires WellFormed(L, s) && Sized(L, ctx, K) && K.frames == [] && K.owners == []
    requires ctx.started < |L.callables| && CallableOk(L, ctx.started)
    requires 1 <= x < |L.elements| && RowDemanded(L, s, ctx, K, x, 0)
    ensures RowDemanded(L, s, ctx.(started := ctx.started + 1),
                        Begin(L, K, L.callables[ctx.started].elementIndex), x, 0)
  {
    hide ForwardSum; hide CountPicks; hide Sum;
    var row := L.callables[ctx.started].elementIndex;
    var body := L.elements[row].firstChild;
    assert RowOk(L, s, x) && RowOk(L, s, s.parent[x]);
    if body == NO_INDEX {
      Childless(L, s, row, x);
    } else {
      OwedChildren(L, s, row, K.demand[row], x);
      StillOwedPush(s, [], [], DemandFrame(body, K.demand[row]), row, x);
    }
  }

  lemma BeginCallable(L: Layout, s: Shape, ctx: Context, K: Columns)
    requires WellFormed(L, s) && ColumnsOk(L, s, ctx, K) && K.frames == []
    requires ctx.started < |L.callables| && K.mark <= L.callables[ctx.started].elementIndex
    ensures var row := L.callables[ctx.started].elementIndex;
            var K1 := Begin(L, K, row);
            ColumnsOk(L, s, ctx.(started := ctx.started + 1), K1) && StackOk(L, s, row, K1)
  {
    hide End; hide RowDemanded;
    assert CallableOk(L, ctx.started);
    var row := L.callables[ctx.started].elementIndex;
    var K1 := Begin(L, K, row);
    var ctx1 := ctx.(started := ctx.started + 1);
    assert RowOk(L, s, row);
    forall x: nat | 1 <= x < |L.elements|
      ensures RowDemanded(L, s, ctx1, K1, x, 0)
    {
      hide Begin;
      assert RowDemanded(L, s, ctx, K, x, 0);
      BeginRow(L, s, ctx, K, x);
    }
    forall x: nat | x < |L.elements| && RowIndexed(L, x)
      ensures Untouched(L, K1, x)
    {
      assert Untouched(L, K, x);
    }
  }

  lemma {:induction false} ForwardIsCall(L: Layout, demand: seq<nat>, c: nat, n: nat)
    requires |demand| == |L.elements| && n <= |L.elements| && NoBackwardCall(L)
    ensures ForwardSum(L, demand, c, n) == CallSum(L, demand, c, n)
  {
    if n > 0 { ForwardIsCall(L, demand, c, n - 1); }
  }

  /** The declared entries of each callable: one per callable that a backward call enters, in order. */
  function DeclaredOf(L: Layout, calls: seq<nat>, n: nat): (r: seq<nat>)
    requires n <= |L.callables| && CountFlags(L.callables, n) <= |calls|
    ensures |r| == n
  {
    if n == 0 then [] else
    DeclaredOf(L, calls, n - 1)
      + [if L.callables[n - 1].hasBackwardCall then calls[CountFlags(L.callables, n - 1)] else 0]
  }

  ghost predicate RowBalancedWith(L: Layout, s: Shape, occurrences: nat, declared: seq<nat>,
                                  values: seq<seq<int>>, demand: seq<nat>, e: nat)
    requires WellFormed(L, s) && 1 <= e < |L.elements|
    requires |demand| == |L.elements| && |values| == |L.bands| && |declared| == |L.callables|
  {
    demand[e] == ColumnFlow(L, s, occurrences, declared, values, demand, e)
  }

  /** The columns are balanced when each callable is entered by its forward callers and as often as declared. */
  ghost predicate ColumnBalanced(L: Layout, s: Shape, occurrences: nat, declared: seq<nat>,
                                 values: seq<seq<int>>, demand: seq<nat>)
    requires WellFormed(L, s)
  {
    && |demand| == |L.elements| && |values| == |L.bands| && |declared| == |L.callables|
    && (forall b: nat :: b < |L.bands| ==> BandBalanced(L, s, values, demand, b))
    && (forall e: nat :: 1 <= e < |L.elements| ==> RowBalancedWith(L, s, occurrences, declared, values, demand, e))
  }

  /** Once every body is read, the columns are balanced. */
  lemma AllRead(L: Layout, s: Shape, ctx: Context, K: Columns)
    requires WellFormed(L, s) && ColumnsOk(L, s, ctx, K) && K.frames == [] && ctx.started == |L.callables|
    ensures ColumnBalanced(L, s, ctx.occurrences, ctx.declared, K.values, K.demand)
  {
    hide ColumnFlow;
    forall x: nat | 1 <= x < |L.elements|
      ensures RowBalancedWith(L, s, ctx.occurrences, ctx.declared, K.values, K.demand, x)
    {
      assert RowDemanded(L, s, ctx, K, x, 0);
      assert RowOk(L, s, x) && RowIndexed(L, s.parent[x]);
    }
  }

  lemma {:induction false} NothingDeclared(L: Layout, calls: seq<nat>, n: nat)
    requires n <= |L.callables| && CountFlags(L.callables, n) <= |calls|
    requires forall c :: 0 <= c < n ==> !L.callables[c].hasBackwardCall
    ensures forall c :: 0 <= c < n ==> DeclaredOf(L, calls, n)[c] == 0
  {
    if n > 0 { NothingDeclared(L, calls, n - 1); }
  }

  /** Without backward calls the declared entries are nil and the plain flow equations hold. */
  lemma ForwardBalanced(L: Layout, s: Shape, occurrences: nat, calls: seq<nat>, values: seq<seq<int>>, demand: seq<nat>)
    requires WellFormed(L, s) && NoBackwardCall(L) && L.backwardCallables == |calls|
    requires ColumnBalanced(L, s, occurrences, DeclaredOf(L, calls, |L.callables|), values, demand)
    ensures Balanced(L, s, occurrences, values, demand)
  {
    hide BodyFlow; hide ForwardSum; hide CallSum;
    forall c | 0 <= c < |L.callables|
      ensures !L.callables[c].hasBackwardCall
    {
      assert FlagOk(L, c);
    }
    NothingDeclared(L, calls, |L.callables|);
    forall x: nat | 1 <= x < |L.elements|
      ensures RowBalanced(L, s, occurrences, values, demand, x)
    {
      assert RowBalancedWith(L, s, occurrences, DeclaredOf(L, calls, |L.callables|), values, demand, x);
      assert RowIndexed(L, x);
      ForwardIsCall(L, demand, L.elements[x].callableIndex, |L.elements|);
    }
  }

  //
  // Order of delivery
  //

  /** The non-empty reads of the first n bands, in band order, each with its coding. */
  function Deliveries(L: Layout, values: seq<seq<int>>, n: nat): seq<(CodingKind, seq<int>)>
    requires n <= |L.bands| == |values|
  {
    if n == 0 then [] else
    Deliveries(L, values, n - 1) + if values[n - 1] == [] then [] else [(L.bands[n - 1].coding, values[n - 1])]
  }

  /** Filling a band behind which everything is empty appends one delivery. */
  lemma {:induction false} DeliverNext(L: Layout, values: seq<seq<int>>, b: nat, vs: seq<int>, n: nat)
    requires n <= |L.bands| == |values| && b < |values|
    requires forall k :: b <= k < |values| ==> values[k] == []
    ensures Deliveries(L, values[b := vs], n)
         == Deliveries(L, values, n) + if b < n && vs != [] then [(L.bands[b].coding, vs)] else []
  {
    if n > 0 {
      DeliverNext(L, values, b, vs, n - 1);
    }
  }

  lemma UnreadEmpty(L: Layout, s: Shape, K: Columns, e: nat, k: nat)
    requires WellFormed(L, s) && |K.values| == |L.bands| && |K.demand| == |L.elements|
    requires forall x: nat :: x < |L.elements| && RowIndexed(L, x) ==> Untouched(L, K, x)
    requires e < |L.elements| && HasBand(L.elements[e]) && K.mark <= e && RowIndexed(L, e)
    requires L.elements[e].bandIndex <= k < |L.bands|
    ensures K.values[k] == []
  {
    assert RowOk(L, s, e) && BandOk(L, s, k);
    assert RowIndexed(L, s.owner[k]) && Untouched(L, K, s.owner[k]);
  }
}
