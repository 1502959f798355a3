// Which bands a supply of integers spells: the columns are determined by the integers alone, so the
// column-wise reader has nothing to choose and refuses only what has no columns.
module LayoutUnique {
  import opened Common
  import opened LayoutModel
  import opened LayoutMachine
  import opened LayoutFlow
  import opened LayoutColumns

  /** The values of the first n bands, one band behind the other. */
  function Laid(values: seq<seq<int>>, n: nat): seq<int>
    requires n <= |values|
  {
    if n == 0 then [] else Laid(values, n - 1) + values[n - 1]
  }

  /** The repeat counts of row e add up to a SIZE_T. */
  predicate TotalFits(L: Layout, values: seq<seq<int>>, e: nat)
    requires e < |L.elements|
  {
    L.elements[e].kind == Replication && L.elements[e].bandIndex < |values| ==> Sum(values[L.elements[e].bandIndex]) <= SIZE_MAX
  }

  /** Callable c is entered no more often than a SIZE_T counts. */
  predicate EntriesFit(L: Layout, demand: seq<nat>, c: nat)
    requires c < |L.callables|
  {
    L.callables[c].elementIndex < |demand| && demand[L.callables[c].elementIndex] <= SIZE_MAX
  }

  /**
   * The integers of `rest` start with balanced columns: band after band, each as long as the bands before
   * it and the declared backward entries ask, with counts a SIZE_T can hold.
   */
  ghost predicate Columned(L: Layout, s: Shape, occurrences: nat, declared: seq<nat>, rest: seq<int>,
                           values: seq<seq<int>>, demand: seq<nat>)
    requires WellFormed(L, s)
  {
    && ColumnBalanced(L, s, occurrences, declared, values, demand)
    && (forall e: nat :: e < |L.elements| ==> TotalFits(L, values, e))
    && (forall c: nat :: c < |L.callables| ==> EntriesFit(L, demand, c))
    && Laid(values, |values|) <= rest
  }

  lemma {:induction false} LaidRises(values: seq<seq<int>>, b: nat, n: nat)
    requires b <= n <= |values|
    ensures Laid(values, b) <= Laid(values, n)
    decreases n
  {
    if b < n { LaidRises(values, b, n - 1); }
  }

  /** Band b stands where the bands before it end. */
  lemma LaidAt(values: seq<seq<int>>, rest: seq<int>, b: nat)
    requires Laid(values, |values|) <= rest && b < |values|
    ensures var at := |Laid(values, b)|;
      at + |values[b]| <= |rest| && values[b] == rest[at..at + |values[b]|]
  {
    LaidRises(values, b + 1, |values|);
    var front := Laid(values, b);
    assert Laid(values, b + 1) == front + values[b];
    hide Laid;
    PieceOf(front, values[b], Laid(values, |values|), rest);
  }

  lemma PieceOf(front: seq<int>, piece: seq<int>, all: seq<int>, rest: seq<int>)
    requires front + piece <= all <= rest
    ensures |front| + |piece| <= |rest| && rest[|front|..|front| + |piece|] == piece
  {
    forall k | 0 <= k < |piece|
      ensures rest[|front| + k] == piece[k]
    {
      assert rest[|front| + k] == (front + piece)[|front| + k];
    }
  }

  lemma {:induction false} LaidSame(a: seq<seq<int>>, b: seq<seq<int>>, n: nat)
    requires n <= |a| && n <= |b| && forall k :: 0 <= k < n ==> a[k] == b[k]
    ensures Laid(a, n) == Laid(b, n)
  {
    if n > 0 { LaidSame(a, b, n - 1); }
  }

  /** Bands from b on are empty. */
  lemma {:induction false} LaidEnds(values: seq<seq<int>>, b: nat, n: nat)
    requires b <= n <= |values| && forall k :: b <= k < n ==> values[k] == []
    ensures Laid(values, n) == Laid(values, b)
    decreases n
  {
    if b < n { LaidEnds(values, b, n - 1); }
  }

  lemma {:induction false} LaidNext(values: seq<seq<int>>, b: nat, vs: seq<int>)
    requires b < |values| && forall k :: b <= k < |values| ==> values[k] == []
    ensures Laid(values[b := vs], |values|) == Laid(values, |values|) + vs
  {
    var more := values[b := vs];
    LaidEnds(values, b, |values|);
    LaidEnds(more, b + 1, |values|);
    LaidSame(values, more, b);
  }

  //
  // Two columns over the same integers agree
  //

  /** Rows and bands before row x are the same on both sides. */
  ghost predicate Same(L: Layout, values: seq<seq<int>>, demand: seq<nat>, values': seq<seq<int>>, demand': seq<nat>, x: nat)
    requires |values| == |values'| == |L.bands| && |demand| == |demand'| == |L.elements|
  {
    forall y: nat :: 1 <= y < x && y < |L.elements| ==> SameRow(L, values, demand, values', demand', y)
  }

  predicate SameRow(L: Layout, values: seq<seq<int>>, demand: seq<nat>, values': seq<seq<int>>, demand': seq<nat>, y: nat)
    requires |values| == |values'| == |L.bands| && |demand| == |demand'| == |L.elements| && y < |L.elements|
  {
    && demand[y] == demand'[y]
    && (HasBand(L.elements[y]) && L.elements[y].bandIndex < |L.bands| ==>
          values[L.elements[y].bandIndex] == values'[L.elements[y].bandIndex])
  }

  lemma {:induction false} ForwardSame(L: Layout, demand: seq<nat>, demand': seq<nat>, c: nat, n: nat)
    requires |demand| == |demand'| == |L.elements| && n <= |L.elements|
    requires forall i :: 0 <= i < n && L.elements[i].kind == Call && !L.elements[i].backwardCall && L.elements[i].targetCallable == c
               ==> demand[i] == demand'[i]
    ensures ForwardSum(L, demand, c, n) == ForwardSum(L, demand', c, n)
  {
    if n > 0 { ForwardSame(L, demand, demand', c, n - 1); }
  }

  /** What flows into row x comes from the rows before it. */
  lemma FlowSame(L: Layout, s: Shape, occurrences: nat, declared: seq<nat>, values: seq<seq<int>>, demand: seq<nat>,
                 values': seq<seq<int>>, demand': seq<nat>, x: nat)
    requires WellFormed(L, s) && 1 <= x < |L.elements| && |declared| == |L.callables|
    requires |values| == |values'| == |L.bands| && |demand| == |demand'| == |L.elements|
    requires Same(L, values, demand, values', demand', x)
    ensures ColumnFlow(L, s, occurrences, declared, values, demand, x) == ColumnFlow(L, s, occurrences, declared, values', demand', x)
  {
    hide PairOk; hide CountPicks; hide Sum; hide ForwardSum;
    assert RowOk(L, s, x);
    if L.elements[x].kind == Callable {
      var c := L.elements[x].callableIndex;
      RootFirst(L, s);
      forall i: nat | i < |L.elements| && L.elements[i].kind == Call && !L.elements[i].backwardCall && L.elements[i].targetCallable == c
        ensures demand[i] == demand'[i]
      {
        assert RowOk(L, s, i);
        assert SameRow(L, values, demand, values', demand', i);
      }
      ForwardSame(L, demand, demand', c, |L.elements|);
    } else {
      var p := s.parent[x];
      assert RowOk(L, s, p);
      if p > 0 { assert SameRow(L, values, demand, values', demand', p); }
    }
  }

  lemma RootFirst(L: Layout, s: Shape)
    requires WellFormed(L, s)
    ensures L.elements[0].kind == Sequence
  {
    hide PairOk;
    assert RowOk(L, s, 0);
  }

  /** Columns settled before row `limit` are those of any columns the same integers spell. */
  lemma {:induction false} Agree(L: Layout, s: Shape, occurrences: nat, declared: seq<nat>, rest: seq<int>,
                                 values: seq<seq<int>>, demand: seq<nat>, values': seq<seq<int>>, demand': seq<nat>, x: nat)
    requires WellFormed(L, s) && x <= |L.elements|
    requires |values| == |L.bands| && |demand| == |L.elements| && |declared| == |L.callables| && Laid(values, |values|) <= rest
    requires forall b: nat :: b < |L.bands| ==> BandBalanced(L, s, values, demand, b)
    requires forall y: nat :: 1 <= y < x ==> RowBalancedWith(L, s, occurrences, declared, values, demand, y)
    requires Columned(L, s, occurrences, declared, rest, values', demand')
    ensures Same(L, values, demand, values', demand', x)
  {
    hide PairOk; hide ColumnFlow; hide RowOk; hide Laid; hide BandBalanced;
    if x > 1 {
      var y := x - 1;
      Agree(L, s, occurrences, declared, rest, values, demand, values', demand', y);
      FlowSame(L, s, occurrences, declared, values, demand, values', demand', y);
      assert RowBalancedWith(L, s, occurrences, declared, values, demand, y);
      assert RowBalancedWith(L, s, occurrences, declared, values', demand', y);
      AgreeBand(L, s, rest, values, demand, values', demand', y);
    }
  }

  lemma AgreeBand(L: Layout, s: Shape, rest: seq<int>, values: seq<seq<int>>, demand: seq<nat>,
                  values': seq<seq<int>>, demand': seq<nat>, y: nat)
    requires WellFormed(L, s) && 1 <= y < |L.elements|
    requires |values| == |values'| == |L.bands| && |demand| == |demand'| == |L.elements|
    requires Laid(values, |values|) <= rest && Laid(values', |values'|) <= rest
    requires forall b: nat :: b < |L.bands| ==> BandBalanced(L, s, values, demand, b) && BandBalanced(L, s, values', demand', b)
    requires Same(L, values, demand, values', demand', y) && demand[y] == demand'[y]
    ensures SameRow(L, values, demand, values', demand', y)
  {
    hide PairOk; hide Laid;
    assert RowOk(L, s, y);
    if HasBand(L.elements[y]) {
      var b := L.elements[y].bandIndex;
      SameBefore(L, s, values, demand, values', demand', y);
      LaidSame(values, values', b);
      LaidAt(values, rest, b);
      LaidAt(values', rest, b);
      assert BandBalanced(L, s, values, demand, b) && BandBalanced(L, s, values', demand', b);
    }
  }

  /** The bands of earlier rows come first. */
  lemma SameBefore(L: Layout, s: Shape, values: seq<seq<int>>, demand: seq<nat>, values': seq<seq<int>>, demand': seq<nat>, y: nat)
    requires WellFormed(L, s) && 1 <= y < |L.elements| && HasBand(L.elements[y])
    requires |values| == |values'| == |L.bands| && |demand| == |demand'| == |L.elements|
    requires Same(L, values, demand, values', demand', y)
    ensures L.elements[y].bandIndex < |L.bands|
    ensures forall k: nat :: k < L.elements[y].bandIndex ==> values[k] == values'[k]
  {
    hide PairOk;
    assert RowOk(L, s, y);
    RootFirst(L, s);
    forall k: nat | k < L.elements[y].bandIndex
      ensures values[k] == values'[k]
    {
      assert BandOk(L, s, k) && RowOk(L, s, s.owner[k]);
      assert SameRow(L, values, demand, values', demand', s.owner[k]);
    }
  }

  /** The same integers spell the same columns. */
  lemma ColumnsUnique(L: Layout, s: Shape, occurrences: nat, declared: seq<nat>, rest: seq<int>,
                      values: seq<seq<int>>, demand: seq<nat>, values': seq<seq<int>>, demand': seq<nat>)
    requires WellFormed(L, s)
    requires Columned(L, s, occurrences, declared, rest, values, demand)
    requires Columned(L, s, occurrences, declared, rest, values', demand')
    ensures values == values' && forall e: nat :: 1 <= e < |L.elements| ==> demand[e] == demand'[e]
  {
    hide PairOk; hide Laid; hide BandBalanced; hide RowBalancedWith;
    Agree(L, s, occurrences, declared, rest, values, demand, values', demand', |L.elements|);
    RootFirst(L, s);
    forall k: nat | k < |L.bands|
      ensures values[k] == values'[k]
    {
      assert BandOk(L, s, k) && RowOk(L, s, s.owner[k]);
      assert SameRow(L, values, demand, values', demand', s.owner[k]);
    }
    forall e: nat | 1 <= e < |L.elements|
      ensures demand[e] == demand'[e]
    {
      assert SameRow(L, values, demand, values', demand', e);
    }
  }

  //
  // The reader in progress
  //

  /** The row being read: the callable started last, or the top level when there are none. */
  predicate RootOk(L: Layout, ctx: Context, root: nat) {
    && root < |L.elements|
    && if |L.callables| == 0 then root == 0
       else 1 <= ctx.started <= |L.callables| && root == L.callables[ctx.started - 1].elementIndex
  }

  /** Nothing is owed to row y any more, and its body has been started. */
  predicate Paid(L: Layout, s: Shape, ctx: Context, K: Columns, y: nat)
    requires |s.parent| == |L.elements| && y < |L.elements| && |K.frames| == |K.owners|
  {
    !Unread(L, s, ctx.started, y) && StillOwed(s, K.frames, K.owners, y) == 0
  }

  /** Frames that stand at or behind e owe nothing before it. */
  lemma {:induction false} OwedBefore(s: Shape, frames: seq<DemandFrame>, owners: seq<nat>, e: nat, y: nat)
    requires y < e <= |s.parent| && |frames| == |owners|
    requires forall k :: 0 <= k < |frames| ==> e <= frames[k].next
    ensures StillOwed(s, frames, owners, y) == 0
  {
    if |frames| > 0 { OwedBefore(s, frames[..|frames| - 1], owners[..|owners| - 1], e, y); }
  }

  /** Only the top frame owes the row it stands at. */
  lemma {:induction false} OwedAt(s: Shape, frames: seq<DemandFrame>, owners: seq<nat>, e: nat)
    requires e < |s.parent| && |frames| == |owners| > 0
    requires frames[|frames| - 1].next == e && s.parent[e] == owners[|owners| - 1]
    requires forall k :: 0 <= k < |frames| - 1 ==> e < frames[k].next
    ensures StillOwed(s, frames, owners, e) == frames[|frames| - 1].count
  {
    var n := |frames| - 1;
    OwedBeforeTop(s, frames[..n], owners[..n], e);
  }

  lemma {:induction false} OwedBeforeTop(s: Shape, frames: seq<DemandFrame>, owners: seq<nat>, e: nat)
    requires e < |s.parent| && |frames| == |owners|
    requires forall k :: 0 <= k < |frames| ==> e < frames[k].next
    ensures StillOwed(s, frames, owners, e) == 0
  {
    if |frames| > 0 { OwedBeforeTop(s, frames[..|frames| - 1], owners[..|owners| - 1], e); }
  }

  /** All frames below the top one continue behind the subtree the top one walks over. */
  lemma FramesBehind(L: Layout, s: Shape, root: nat, K: Columns)
    requires WellFormed(L, s) && root < |L.elements| && StackOk(L, s, root, K) && K.frames != []
    requires K.frames[|K.frames| - 1].next != NO_INDEX
    ensures var n := |K.frames| - 1;
      var e := K.frames[n].next;
      && root < e < |L.elements| && s.parent[e] == K.owners[n] && e < End(s, root)
      && forall k :: 0 <= k < n ==> e < K.frames[k].next
  {
    hide End; hide PairOk;
    var n := |K.frames| - 1;
    var e := K.frames[n].next;
    assert DemandFrameOk(L, s, root, K.frames[n], K.owners[n], K.mark);
    EndChild(L, s, K.owners[n], e);
    forall k | 0 <= k < n
      ensures e < K.frames[k].next
    {
      assert StackedOk(s, K.frames[k], K.owners[k], K.owners[n]);
    }
  }

  /** Bodies of callables not started yet begin behind the row at hand. */
  lemma StartedBefore(L: Layout, s: Shape, started: nat, lim: nat, y: nat)
    requires WellFormed(L, s) && 1 <= y < lim <= |L.elements|
    requires forall c: nat :: started <= c < |L.callables| ==> lim <= L.callables[c].elementIndex
    ensures !Unread(L, s, started, y)
  {
    hide PairOk;
    assert RowOk(L, s, y) && RowOk(L, s, s.parent[y]);
  }

  /** Everything before row lim is settled; then lim is owed what any columns over these integers give it. */
  lemma Foreseen(L: Layout, s: Shape, ctx: Context, K: Columns, lim: nat, rest: seq<int>, values: seq<seq<int>>, demand: seq<nat>)
    requires WellFormed(L, s) && ColumnsOk(L, s, ctx, K) && 1 <= lim < |L.elements| && Laid(K.values, |K.values|) <= rest
    requires forall y: nat :: 1 <= y < lim ==> Paid(L, s, ctx, K, y)
    requires !Unread(L, s, ctx.started, lim)
    requires Columned(L, s, ctx.occurrences, ctx.declared, rest, values, demand)
    ensures Same(L, K.values, K.demand, values, demand, lim)
    ensures demand[lim] == K.demand[lim] + StillOwed(s, K.frames, K.owners, lim)
  {
    hide PairOk; hide ColumnFlow; hide Laid; hide BandBalanced; hide StillOwed; hide Unread; hide RowOk; hide Untouched;
    forall y: nat | 1 <= y < lim
      ensures RowBalancedWith(L, s, ctx.occurrences, ctx.declared, K.values, K.demand, y)
    {
      assert RowDemanded(L, s, ctx, K, y, 0) && Paid(L, s, ctx, K, y);
    }
    Agree(L, s, ctx.occurrences, ctx.declared, rest, K.values, K.demand, values, demand, lim);
    FlowSame(L, s, ctx.occurrences, ctx.declared, K.values, K.demand, values, demand, lim);
    assert RowDemanded(L, s, ctx, K, lim, 0);
    assert RowBalancedWith(L, s, ctx.occurrences, ctx.declared, values, demand, lim);
  }

  lemma PaidBefore(L: Layout, s: Shape, ctx: Context, root: nat, K: Columns)
    requires WellFormed(L, s) && RootOk(L, ctx, root) && StackOk(L, s, root, K) && K.frames != []
    requires K.frames[|K.frames| - 1].next != NO_INDEX
    ensures var e := K.frames[|K.frames| - 1].next;
      && 1 <= e < |L.elements| && !Unread(L, s, ctx.started, e)
      && (forall y: nat :: 1 <= y < e ==> Paid(L, s, ctx, K, y))
      && StillOwed(s, K.frames, K.owners, e) == K.frames[|K.frames| - 1].count
  {
    hide PairOk; hide End; hide Unread; hide StillOwed; hide RowOk; hide DemandFrameOk; hide StackedOk;
    FramesBehind(L, s, root, K);
    var e := K.frames[|K.frames| - 1].next;
    RootsApart(L, s, ctx, root, e);
    OwedAt(s, K.frames, K.owners, e);
    forall y: nat | 1 <= y < e
      ensures Paid(L, s, ctx, K, y)
    {
      StartedBefore(L, s, ctx.started, e + 1, y);
      OwedBefore(s, K.frames, K.owners, e, y);
    }
    StartedBefore(L, s, ctx.started, e + 1, e);
  }

  /** The rows of later callables come after all rows of the body at hand. */
  lemma RootsApart(L: Layout, s: Shape, ctx: Context, root: nat, e: nat)
    requires WellFormed(L, s) && RootOk(L, ctx, root) && e < |L.elements| && e < End(s, root)
    ensures forall c: nat :: ctx.started <= c < |L.callables| ==> e < L.callables[c].elementIndex
  {
    hide End; hide PairOk;
    forall c: nat | ctx.started <= c < |L.callables|
      ensures e < L.callables[c].elementIndex
    {
      var d := L.callables[c].elementIndex;
      assert CallableOk(L, c) && CallableOk(L, ctx.started - 1);
      assert RowOk(L, s, d) && RowOk(L, s, root) && RowOk(L, s, s.parent[d]) && RowOk(L, s, s.parent[root]);
      EndSibling(L, s, root, d);
    }
  }

  //
  // Refusals
  //

  /** No columns stand at the front of these integers. */
  ghost predicate Uncolumned(L: Layout, s: Shape, occurrences: nat, declared: seq<nat>, rest: seq<int>)
    requires WellFormed(L, s)
  {
    forall values, demand :: !Columned(L, s, occurrences, declared, rest, values, demand)
  }

  /** The integers start with columns for these declared counts of backward calls. */
  ghost predicate Spelt(L: Layout, s: Shape, occurrences: nat, calls: seq<nat>, rest: seq<int>)
    requires WellFormed(L, s) && |calls| == L.backwardCallables
  {
    exists values, demand :: Columned(L, s, occurrences, DeclaredOf(L, calls, |L.callables|), rest, values, demand)
  }

  /** Repeat counts no writer can have meant: a negative one, or a running total beyond SIZE_T. */
  ghost predicate RepeatsBad(vs: seq<int>) {
    exists k :: 0 <= k < |vs| && (vs[k] < 0 || Sum(vs[..k + 1]) > SIZE_MAX)
  }

  /** The row at hand and its values are those of any columns over the same integers. */
  lemma NextBand(L: Layout, s: Shape, ctx: Context, root: nat, K: Columns, rest: seq<int>, values: seq<seq<int>>, demand: seq<nat>)
    requires WellFormed(L, s) && ColumnsOk(L, s, ctx, K) && RootOk(L, ctx, root) && StackOk(L, s, root, K)
    requires K.frames != [] && K.frames[|K.frames| - 1].next != NO_INDEX && Laid(K.values, |K.values|) <= rest
    requires Columned(L, s, ctx.occurrences, ctx.declared, rest, values, demand)
    ensures var top := K.frames[|K.frames| - 1];
      && 1 <= top.next < |L.elements| && demand[top.next] == top.count && K.demand[top.next] == 0
      && K.mark <= top.next && L.elements[top.next].kind != Callable && L.elements[top.next].kind != UnionCase
      && Same(L, K.values, K.demand, values, demand, top.next)
      && var el := L.elements[top.next];
      && var at := |Laid(K.values, |K.values|)|;
      && (HasBand(el) ==> el.bandIndex < |L.bands| && at + top.count <= |rest| && values[el.bandIndex] == rest[at..at + top.count])
  {
    hide PairOk; hide ColumnFlow; hide Laid; hide StillOwed; hide Unread; hide End; hide StackedOk; hide Same; hide RowDemanded;
    var top := K.frames[|K.frames| - 1];
    var e := top.next;
    PaidBefore(L, s, ctx, root, K);
    Foreseen(L, s, ctx, K, e, rest, values, demand);
    assert DemandFrameOk(L, s, root, top, K.owners[|K.owners| - 1], K.mark);
    assert RowOk(L, s, e);
    assert RowIndexed(L, K.owners[|K.owners| - 1]);
    assert Untouched(L, K, e);
    var el := L.elements[e];
    if HasBand(el) {
      var b := el.bandIndex;
      forall k | b <= k < |K.values|
        ensures K.values[k] == []
      {
        UnreadEmpty(L, s, K, e, k);
      }
      LaidEnds(K.values, b, |K.values|);
      SameBefore(L, s, K.values, K.demand, values, demand, e);
      LaidSame(K.values, values, b);
      LaidAt(values, rest, b);
      assert BandBalanced(L, s, values, demand, b);
    }
  }

  /** Too few integers for the band at hand. */
  lemma StarvedRefused(L: Layout, s: Shape, ctx: Context, root: nat, K: Columns, rest: seq<int>)
    requires WellFormed(L, s) && ColumnsOk(L, s, ctx, K) && RootOk(L, ctx, root) && StackOk(L, s, root, K)
    requires K.frames != [] && K.frames[|K.frames| - 1].next < |L.elements| && HasBand(L.elements[K.frames[|K.frames| - 1].next])
    requires Laid(K.values, |K.values|) <= rest && |Laid(K.values, |K.values|)| + K.frames[|K.frames| - 1].count > |rest|
    ensures Uncolumned(L, s, ctx.occurrences, ctx.declared, rest)
  {
    hide WellFormed; hide ColumnsOk; hide RootOk; hide StackOk; hide Laid; hide Columned; hide Same;
    IndexSmall(L, s);
    forall values, demand | Columned(L, s, ctx.occurrences, ctx.declared, rest, values, demand)
      ensures false
    {
      NextBand(L, s, ctx, root, K, rest, values, demand);
    }
  }

  lemma IndexSmall(L: Layout, s: Shape)
    requires WellFormed(L, s)
    ensures |L.elements| < NO_INDEX
  {
  }

  /** A negative repeat count, or too many repeats. */
  lemma RepeatsRefused(L: Layout, s: Shape, ctx: Context, root: nat, K: Columns, rest: seq<int>, vs: seq<int>)
    requires WellFormed(L, s) && ColumnsOk(L, s, ctx, K) && RootOk(L, ctx, root) && StackOk(L, s, root, K)
    requires K.frames != [] && K.frames[|K.frames| - 1].next < |L.elements|
    requires L.elements[K.frames[|K.frames| - 1].next].kind == Replication
    requires Laid(K.values, |K.values|) + vs <= rest && |vs| == K.frames[|K.frames| - 1].count && RepeatsBad(vs)
    ensures Uncolumned(L, s, ctx.occurrences, ctx.declared, rest)
  {
    hide WellFormed; hide ColumnsOk; hide RootOk; hide StackOk; hide Laid; hide Same; hide ColumnBalanced; hide RepeatsBad;
    IndexSmall(L, s);
    var at := |Laid(K.values, |K.values|)|;
    assert rest[..at + |vs|] == Laid(K.values, |K.values|) + vs;
    assert rest[at..at + |vs|] == rest[..at + |vs|][at..] == vs;
    assert Laid(K.values, |K.values|) <= rest;
    forall values, demand | Columned(L, s, ctx.occurrences, ctx.declared, rest, values, demand)
      ensures false
    {
      NextBand(L, s, ctx, root, K, rest, values, demand);
      assert TotalFits(L, values, K.frames[|K.frames| - 1].next);
      RepeatsGood(L, s, ctx, values, demand, K.frames[|K.frames| - 1].next);
    }
  }

  lemma RepeatsGood(L: Layout, s: Shape, ctx: Context, values: seq<seq<int>>, demand: seq<nat>, e: nat)
    requires WellFormed(L, s) && ColumnBalanced(L, s, ctx.occurrences, ctx.declared, values, demand)
    requires e < |L.elements| && L.elements[e].kind == Replication && TotalFits(L, values, e)
    ensures L.elements[e].bandIndex < |values| && !RepeatsBad(values[L.elements[e].bandIndex])
  {
    hide PairOk; hide RowBalancedWith;
    assert RowOk(L, s, e);
    var vs := values[L.elements[e].bandIndex];
    assert BandBalanced(L, s, values, demand, L.elements[e].bandIndex);
    forall k | 0 <= k < |vs|
      ensures vs[k] >= 0 && Sum(vs[..k + 1]) <= SIZE_MAX
    {
      SumPrefix(vs, k + 1);
    }
  }

  lemma {:induction false} ForwardRises(L: Layout, a: seq<nat>, b: seq<nat>, c: nat, n: nat)
    requires |a| == |b| == |L.elements| && n <= |L.elements|
    requires forall i :: 0 <= i < n && L.elements[i].kind == Call ==> a[i] <= b[i]
    ensures ForwardSum(L, a, c, n) <= ForwardSum(L, b, c, n)
  {
    if n > 0 { ForwardRises(L, a, b, c, n - 1); }
  }

  /** A call that takes its target beyond what a SIZE_T counts. */
  lemma CallRefused(L: Layout, s: Shape, ctx: Context, root: nat, K: Columns, rest: seq<int>, e: nat, row: nat)
    requires WellFormed(L, s) && ColumnsOk(L, s, ctx, K) && RootOk(L, ctx, root) && StackOk(L, s, root, K)
    requires K.frames != [] && K.frames[|K.frames| - 1].next == e < |L.elements|
    requires L.elements[e].kind == Call && !L.elements[e].backwardCall && Laid(K.values, |K.values|) <= rest
    requires L.elements[e].targetCallable < |L.callables| && row == L.callables[L.elements[e].targetCallable].elementIndex < |L.elements|
    requires K.demand[row] + K.frames[|K.frames| - 1].count > SIZE_MAX
    ensures Uncolumned(L, s, ctx.occurrences, ctx.declared, rest)
  {
    hide WellFormed; hide ColumnsOk; hide RootOk; hide StackOk; hide Laid; hide ColumnBalanced;
    IndexSmall(L, s);
    forall values, demand | Columned(L, s, ctx.occurrences, ctx.declared, rest, values, demand)
      ensures false
    {
      assert EntriesFit(L, demand, L.elements[e].targetCallable);
      NextBand(L, s, ctx, root, K, rest, values, demand);
      TargetRises(L, s, ctx, K, values, demand, e, K.frames[|K.frames| - 1].count, row);
    }
  }

  lemma TargetRises(L: Layout, s: Shape, ctx: Context, K: Columns, values: seq<seq<int>>, demand: seq<nat>, e: nat, count: nat, row: nat)
    requires WellFormed(L, s) && ColumnsOk(L, s, ctx, K) && 1 <= e < |L.elements| && K.mark <= e
    requires ColumnBalanced(L, s, ctx.occurrences, ctx.declared, values, demand)
    requires Same(L, K.values, K.demand, values, demand, e) && demand[e] == count && K.demand[e] == 0
    requires L.elements[e].kind == Call && !L.elements[e].backwardCall
    requires L.elements[e].targetCallable < |L.callables| && row == L.callables[L.elements[e].targetCallable].elementIndex < |L.elements|
    ensures K.demand[row] + count <= demand[row]
  {
    hide PairOk; hide BodyFlow; hide ForwardSum; hide StillOwed; hide BandBalanced;
    var t := L.elements[e].targetCallable;
    assert CallableOk(L, t) && RowOk(L, s, row);
    RootFirst(L, s);
    var K1 := K.demand[e := count];
    forall i | 0 <= i < |L.elements| && L.elements[i].kind == Call
      ensures K1[i] <= demand[i]
    {
      if i < e { assert SameRow(L, K.values, K.demand, values, demand, i); }
      assert RowOk(L, s, i) && Untouched(L, K, i);
    }
    ForwardRises(L, K1, demand, t, |L.elements|);
    ForwardSumUpdate(L, K.demand, e, count, t, |L.elements|);
    assert RowDemanded(L, s, ctx, K, row, 0);
    assert RowBalancedWith(L, s, ctx.occurrences, ctx.declared, values, demand, row);
    assert RowOk(L, s, s.parent[row]);
  }

  /** A callable entered more often than a SIZE_T counts. */
  lemma EntryRefused(L: Layout, s: Shape, ctx: Context, K: Columns, rest: seq<int>, row: nat)
    requires WellFormed(L, s) && ColumnsOk(L, s, ctx, K) && K.frames == [] && Laid(K.values, |K.values|) <= rest
    requires ctx.started < |L.callables| && row == L.callables[ctx.started].elementIndex < |L.elements| && K.demand[row] > SIZE_MAX
    ensures Uncolumned(L, s, ctx.occurrences, ctx.declared, rest)
  {
    hide PairOk; hide ColumnFlow; hide Laid; hide StillOwed; hide Unread; hide RowOk; hide ColumnBalanced;
    hide Same; hide RowDemanded; hide Untouched;
    hide BandBalanced;
    assert CallableOk(L, ctx.started);
    assert 1 <= row by { RootFirst(L, s); }
    forall c: nat | ctx.started <= c < |L.callables|
      ensures row <= L.callables[c].elementIndex
    {
    }
    forall y: nat | 1 <= y < row
      ensures Paid(L, s, ctx, K, y)
    {
      StartedBefore(L, s, ctx.started, row, y);
      OwedBefore(s, K.frames, K.owners, row, y);
    }
    NotUnread(L, s, ctx.started, row);
    forall values, demand | Columned(L, s, ctx.occurrences, ctx.declared, rest, values, demand)
      ensures false
    {
      assert EntriesFit(L, demand, ctx.started);
      Foreseen(L, s, ctx, K, row, rest, values, demand);
    }
  }

  /** A callable's own row is in no callable's body. */
  lemma NotUnread(L: Layout, s: Shape, started: nat, row: nat)
    requires WellFormed(L, s) && 1 <= row < |L.elements| && L.elements[row].kind == Callable
    ensures !Unread(L, s, started, row)
  {
    hide PairOk;
    assert RowOk(L, s, row) && RowOk(L, s, s.parent[row]);
  }
}
