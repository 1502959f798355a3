// Reading the bands of one layout: the loops that turn the values of a band into demand for the
// bands below it.
module LayoutDecode {
  import opened Common
  import opened LayoutModel
  import opened LayoutMachine
  import opened LayoutFlow
  import opened LayoutColumns
  import opened LayoutUnique
  import opened BandSupply

  /** Total of the repeat counts, unless one is negative or the total leaves SIZE_T. */
  method SumRepeats(vs: seq<int>) returns (ok: bool, total: nat)
    ensures ok ==> total == Sum(vs) <= SIZE_MAX && forall k :: 0 <= k < |vs| ==> vs[k] >= 0
    ensures ok <==> !RepeatsBad(vs)
  {
    total := 0;
    for k := 0 to |vs|
      invariant total == Sum(vs[..k]) <= SIZE_MAX
      invariant forall j :: 0 <= j < k ==> vs[j] >= 0 && Sum(vs[..j + 1]) <= SIZE_MAX
    {
      assert vs[..k + 1][..k] == vs[..k];
      if vs[k] < 0 || total + vs[k] > SIZE_MAX {
        return false, total;
      }
      total := total + vs[k];
    }
    assert vs[..|vs|] == vs;
    ok := true;
  }

  method Matches(L: Layout, caseIndex: nat, v: int) returns (matched: bool)
    requires caseIndex < |L.elements| && RowIndexed(L, caseIndex)
    ensures matched <==> Contains(L, caseIndex, v)
  {
    var off := L.elements[caseIndex].selectorOffset;
    for k := off to off + L.elements[caseIndex].selectorCount
      invariant forall j :: off <= j < k ==> !(L.selectors[j].first <= v <= L.selectors[j].last)
    {
      if L.selectors[k].first <= v <= L.selectors[k].last {
        return true;
      }
    }
    return false;
  }

  /** Does union value v go to this case? The default takes what no earlier case contains. */
  method CaseTakes(L: Layout, ghost s: Shape, union: nat, caseIndex: nat, v: int) returns (matched: bool)
    requires WellFormed(L, s) && union < |L.elements| && L.elements[union].kind == Union
    requires 1 <= caseIndex < |L.elements| && s.parent[caseIndex] == union
    ensures matched <==> Picks(L, s, caseIndex, v)
  {
    assert RowOk(L, s, caseIndex) && RowOk(L, s, union);
    if L.elements[caseIndex].selectorCount != 0 {
      matched := Matches(L, caseIndex, v);
      return;
    }
    forall d: nat | caseIndex < d < |L.elements|
      ensures s.parent[d] != union
    {
      assert PairOk(L, s, caseIndex, d);
    }
    matched := true;
    var prior := L.elements[union].firstChild;
    NoneBefore(L, s, union);
    assert RowOk(L, s, prior);
    while prior != caseIndex && matched
      invariant 1 <= prior <= caseIndex && s.parent[prior] == union
      invariant matched ==> forall d: nat :: 1 <= d < prior && s.parent[d] == union ==> !Contains(L, d, v)
      invariant !matched ==> !Picks(L, s, caseIndex, v)
      decreases caseIndex - prior, matched
    {
      assert RowOk(L, s, prior) && RowIndexed(L, prior);
      var contains := Matches(L, prior, v);
      if contains {
        matched := false;
      } else {
        assert PairOk(L, s, prior, caseIndex);
        var next := L.elements[prior].nextSibling;
        forall d: nat | prior < d < next
          ensures s.parent[d] != union
        {
          assert PairOk(L, s, prior, d);
        }
        prior := next;
      }
    }
  }

  /** No child of a row comes before its first child. */
  lemma NoneBefore(L: Layout, s: Shape, p: nat)
    requires WellFormed(L, s) && p < |L.elements|
    ensures forall d: nat :: 1 <= d < |L.elements| && s.parent[d] == p ==> L.elements[p].firstChild <= d
  {
    forall d: nat | 1 <= d < |L.elements| && s.parent[d] == p
      ensures L.elements[p].firstChild <= d
    {
      assert RowOk(L, s, d);
      assert PairOk(L, s, p, d);
    }
  }

  method CountCase(L: Layout, ghost s: Shape, union: nat, caseIndex: nat, vs: seq<int>) returns (count: nat)
    requires WellFormed(L, s) && union < |L.elements| && L.elements[union].kind == Union
    requires 1 <= caseIndex < |L.elements| && s.parent[caseIndex] == union
    ensures count == CountPicks(L, s, caseIndex, vs)
  {
    count := 0;
    for k := 0 to |vs|
      invariant count == CountPicks(L, s, caseIndex, vs[..k])
    {
      var matched := CaseTakes(L, s, union, caseIndex, vs[k]);
      assert vs[..k + 1] == vs[..k] + [vs[k]];
      PicksSnoc(L, s, caseIndex, vs[..k], vs[k]);
      if matched {
        count := count + 1;
      }
    }
    assert vs[..|vs|] == vs;
  }

  /** The frames of the non-empty cases from c on, in sibling order. */
  ghost function CaseList(L: Layout, s: Shape, vs: seq<int>, c: nat): seq<DemandFrame>
    requires Indexed(L) && |s.parent| == |L.elements| && Within(c, |L.elements|)
    decreases if c == NO_INDEX then 0 else |L.elements| - c
  {
    if c == NO_INDEX then [] else
    assert RowIndexed(L, c);
    var count := CountPicks(L, s, c, vs);
    (if L.elements[c].firstChild != NO_INDEX && count != 0 then [DemandFrame(L.elements[c].firstChild, count)] else [])
    + CaseList(L, s, vs, L.elements[c].nextSibling)
  }

  function Reverse<T>(xs: seq<T>): seq<T> {
    if |xs| == 0 then [] else Reverse(xs[1..]) + [xs[0]]
  }

  lemma {:induction false} ReverseSnoc<T>(xs: seq<T>, x: T)
    ensures Reverse(xs + [x]) == [x] + Reverse(xs)
  {
    if |xs| == 0 {
      assert xs + [x] == [x];
    } else {
      ReverseSnoc(xs[1..], x);
      assert (xs + [x])[1..] == xs[1..] + [x];
    }
  }

  /** Settling the cases pushes exactly their frames, the first case on top, and touches no other row. */
  lemma {:induction false} PayCasesEffect(L: Layout, s: Shape, K: Columns, vs: seq<int>, c: nat)
    requires WellFormed(L, s) && |K.demand| == |L.elements| && Within(c, |L.elements|)
    requires c != NO_INDEX ==> L.elements[c].kind == UnionCase
    ensures var r := PayCases(L, s, K, vs, c);
      && r.frames == K.frames + Reverse(CaseList(L, s, vs, c))
      && r.values == K.values && r.mark == K.mark
      && forall i: nat :: i < |L.elements| && L.elements[i].kind != UnionCase ==> r.demand[i] == K.demand[i]
    decreases if c == NO_INDEX then 0 else |L.elements| - c
  {
    hide CountPicks;
    if c != NO_INDEX {
      assert RowOk(L, s, c) && RowIndexed(L, c);
      var next := L.elements[c].nextSibling;
      if next != NO_INDEX { assert RowOk(L, s, next); assert RowOk(L, s, s.parent[c]); }
      PayCasesEffect(L, s, K, vs, next);
      var count := CountPicks(L, s, c, vs);
      var rest := CaseList(L, s, vs, next);
      if L.elements[c].firstChild != NO_INDEX && count != 0 {
        var f := DemandFrame(L.elements[c].firstChild, count);
        assert ([f] + rest)[1..] == rest;
        assert K.frames + Reverse(rest) + [f] == K.frames + (Reverse(rest) + [f]);
      } else {
        assert [] + rest == rest;
      }
    }
  }

  /** The demand frames of a union's cases, in sibling order. */
  method UnionFrames(L: Layout, ghost s: Shape, union: nat, vs: seq<int>) returns (caseFrames: seq<DemandFrame>)
    requires WellFormed(L, s) && union < |L.elements| && L.elements[union].kind == Union
    requires Within(L.elements[union].firstChild, |L.elements|)
    ensures caseFrames == CaseList(L, s, vs, L.elements[union].firstChild)
  {
    hide CountPicks;
    caseFrames := [];
    assert RowOk(L, s, union);
    var caseIndex := L.elements[union].firstChild;
    assert RowOk(L, s, caseIndex);
    while caseIndex != NO_INDEX
      invariant Within(caseIndex, |L.elements|)
      invariant caseIndex != NO_INDEX ==> 1 <= caseIndex && s.parent[caseIndex] == union
      invariant caseFrames + CaseList(L, s, vs, caseIndex) == CaseList(L, s, vs, L.elements[union].firstChild)
      decreases if caseIndex == NO_INDEX then 0 else |L.elements| - caseIndex
    {
      assert RowOk(L, s, caseIndex) && RowIndexed(L, caseIndex);
      var unionCase := L.elements[caseIndex];
      var count := CountCase(L, s, union, caseIndex, vs);
      ghost var rest := CaseList(L, s, vs, unionCase.nextSibling);
      if unionCase.firstChild != NO_INDEX && count != 0 {
        var f := DemandFrame(unionCase.firstChild, count);
        assert caseFrames + ([f] + rest) == caseFrames + [f] + rest;
        caseFrames := caseFrames + [f];
      } else {
        assert [] + rest == rest;
      }
      caseIndex := unionCase.nextSibling;
    }
  }

  method PushReversed(frames: seq<DemandFrame>, caseFrames: seq<DemandFrame>) returns (frames': seq<DemandFrame>)
    ensures frames' == frames + Reverse(caseFrames)
  {
    frames' := frames;
    var rest := caseFrames;
    while |rest| != 0
      invariant frames' + Reverse(rest) == frames + Reverse(caseFrames)
      decreases |rest|
    {
      var n := |rest| - 1;
      ReverseSnoc(rest[..n], rest[n]);
      assert rest == rest[..n] + [rest[n]];
      frames', rest := frames' + [rest[n]], rest[..n];
    }
  }

  //
  // The reader itself
  //

  /** The running count of callable c plus its declared entries is the demand on its row. */
  predicate EntryOk(L: Layout, declared: seq<nat>, K: Columns, forwardCounts: seq<nat>, c: nat)
    requires c < |L.callables| == |forwardCounts| == |declared|
  {
    var row := L.callables[c].elementIndex;
    row < |K.demand| && forwardCounts[c] + declared[c] == K.demand[row]
  }

  ghost predicate EntriesOk(L: Layout, declared: seq<nat>, K: Columns, forwardCounts: seq<nat>) {
    && |forwardCounts| == |L.callables| == |declared|
    && forall c: nat :: c < |L.callables| ==> EntryOk(L, declared, K, forwardCounts, c)
  }

  /** Facts about the row the top frame stands at. */
  lemma StandsAt(L: Layout, s: Shape, ctx: Context, root: nat, K: Columns)
    requires WellFormed(L, s) && ColumnsOk(L, s, ctx, K) && RootOk(L, ctx, root) && StackOk(L, s, root, K)
    requires K.frames != [] && K.frames[|K.frames| - 1].next != NO_INDEX
    ensures var e := K.frames[|K.frames| - 1].next;
      && 1 <= e < |L.elements| && RowIndexed(L, e) && K.mark <= e && !Unread(L, s, ctx.started, e)
      && L.elements[e].kind != UnionCase && L.elements[e].kind != Callable
      && (HasBand(L.elements[e]) ==> forall k :: L.elements[e].bandIndex <= k < |K.values| ==> K.values[k] == [])
      && (L.elements[e].kind == Call && !L.elements[e].backwardCall ==> ctx.started <= L.elements[e].targetCallable)
  {
    hide End; hide RowDemanded;
    var n := |K.frames| - 1;
    var e := K.frames[n].next;
    var o := K.owners[n];
    assert DemandFrameOk(L, s, root, K.frames[n], o, K.mark);
    assert RowOk(L, s, e) && RowIndexed(L, o);
    assert RowIndexed(L, e);
    if |L.callables| != 0 {
      assert CallableOk(L, ctx.started - 1);
    }
    if HasBand(L.elements[e]) {
      forall k | L.elements[e].bandIndex <= k < |K.values|
        ensures K.values[k] == []
      {
        UnreadEmpty(L, s, K, e, k);
      }
    }
    if L.elements[e].kind == Call && !L.elements[e].backwardCall {
      var t := L.elements[e].targetCallable;
      assert root < e < L.callables[t].elementIndex;
    }
  }

  /** What has been taken so far: the values read, laid end to end, with no count out of bounds. */
  ghost predicate Tracks(L: Layout, ctx: Context, values: seq<seq<int>>, forwardCounts: seq<nat>, taken: seq<int>) {
    && |values| == |L.bands| && |forwardCounts| == |L.callables| == |ctx.declared|
    && taken == Laid(values, |values|)
    && (forall e: nat :: e < |L.elements| ==> TotalFits(L, values, e))
    && (forall c: nat :: c < ctx.started && c < |L.callables| ==> EntryFits(ctx, forwardCounts, c))
  }

  predicate EntryFits(ctx: Context, forwardCounts: seq<nat>, c: nat)
    requires c < |forwardCounts| == |ctx.declared|
  {
    forwardCounts[c] + ctx.declared[c] <= SIZE_MAX
  }

  lemma TrackBand(L: Layout, ctx: Context, values: seq<seq<int>>, forwardCounts: seq<nat>, taken: seq<int>, e: nat, vs: seq<int>)
    requires Tracks(L, ctx, values, forwardCounts, taken) && e < |L.elements| && L.elements[e].bandIndex < |values|
    requires forall k :: L.elements[e].bandIndex <= k < |values| ==> values[k] == []
    requires forall y: nat :: y < |L.elements| && L.elements[y].bandIndex == L.elements[e].bandIndex ==> y == e
    requires L.elements[e].kind == Replication ==> Sum(vs) <= SIZE_MAX
    ensures Tracks(L, ctx, values[L.elements[e].bandIndex := vs], forwardCounts, taken + vs)
  {
    hide Laid;
    var b := L.elements[e].bandIndex;
    var next := values[b := vs];
    LaidNext(values, b, vs);
    forall y: nat | y < |L.elements|
      ensures TotalFits(L, next, y)
    {
      assert TotalFits(L, values, y);
    }
  }

  lemma TrackCall(L: Layout, ctx: Context, values: seq<seq<int>>, forwardCounts: seq<nat>, taken: seq<int>, t: nat, n: nat)
    requires Tracks(L, ctx, values, forwardCounts, taken) && ctx.started <= t < |L.callables|
    ensures Tracks(L, ctx, values, forwardCounts[t := forwardCounts[t] + n], taken)
  {
    var more := forwardCounts[t := forwardCounts[t] + n];
    forall c: nat | c < ctx.started && c < |L.callables|
      ensures EntryFits(ctx, more, c)
    {
      assert EntryFits(ctx, forwardCounts, c);
    }
  }

  /** Each band belongs to one row. */
  lemma OneRow(L: Layout, s: Shape, e: nat)
    requires WellFormed(L, s) && e < |L.elements| && HasBand(L.elements[e])
    ensures L.elements[e].bandIndex < |L.bands|
    ensures forall y: nat :: y < |L.elements| && L.elements[y].bandIndex == L.elements[e].bandIndex ==> y == e
  {
    hide PairOk;
    assert RowOk(L, s, e);
    forall y: nat | y < |L.elements| && L.elements[y].bandIndex == L.elements[e].bandIndex
      ensures y == e
    {
      assert RowOk(L, s, y);
    }
  }

  /** Fetch the values of row e, whose band has not been read before. */
  method FetchBand(L: Layout, ghost s: Shape, source: BandSource, values: seq<seq<int>>, e: nat, count: nat,
                   ghost ctx: Context, ghost root: nat, ghost K: Columns, ghost origin: nat, ghost forwardCounts: seq<nat>)
    returns (ok: bool, values': seq<seq<int>>, vs: seq<int>, ghost more: seq<(CodingKind, seq<int>)>)
    requires WellFormed(L, s) && source.Valid() && e < |L.elements| && HasBand(L.elements[e])
    requires ColumnsOk(L, s, ctx, K) && RootOk(L, ctx, root) && StackOk(L, s, root, K) && K.values == values
    requires K.frames != [] && K.frames[|K.frames| - 1] == DemandFrame(e, count)
    requires origin <= source.position && Tracks(L, ctx, values, forwardCounts, source.supply[origin..source.position])
    modifies source
    ensures source.Valid()
    ensures !ok ==> Uncolumned(L, s, ctx.occurrences, ctx.declared, source.supply[origin..])
    ensures ok ==>
              && L.elements[e].bandIndex < |values| && values' == values[L.elements[e].bandIndex := vs] && |vs| == count
              && origin <= source.position && source.supply[origin..source.position] == Laid(values, |values|) + vs
              && source.delivered == old(source.delivered) + more
              && Deliveries(L, values', |values'|) == Deliveries(L, values, |values|) + more
              && ((L.elements[e].kind == Replication ==> Sum(vs) <= SIZE_MAX) ==>
                    Tracks(L, ctx, values', forwardCounts, source.supply[origin..source.position]))
  {
    hide ColumnsOk; hide StackOk; hide RootOk; hide PairOk; hide Deliveries; hide Flatten; hide Laid; hide Tracks;
    OneRow(L, s, e);
    StandsAt(L, s, ctx, root, K);
    TracksIs(L, ctx, values, forwardCounts, source.supply[origin..source.position]);
    var b := L.elements[e].bandIndex;
    values', more := values, [];
    ghost var at := source.position;
    assert source.supply[origin..at] <= source.supply[origin..];
    ok, vs := source.Take(L.bands[b].coding, count);
    if !ok {
      StarvedRefused(L, s, ctx, root, K, source.supply[origin..]);
      return;
    }
    values' := values[b := vs];
    more := if vs == [] then [] else [(L.bands[b].coding, vs)];
    DeliverNext(L, values, b, vs, |values|);
    assert source.supply[origin..source.position] == source.supply[origin..at] + vs;
    if L.elements[e].kind == Replication ==> Sum(vs) <= SIZE_MAX {
      TrackBand(L, ctx, values, forwardCounts, source.supply[origin..at], e, vs);
    }
  }

  lemma TracksIs(L: Layout, ctx: Context, values: seq<seq<int>>, forwardCounts: seq<nat>, taken: seq<int>)
    requires Tracks(L, ctx, values, forwardCounts, taken)
    ensures |values| == |L.bands| && |forwardCounts| == |L.callables| == |ctx.declared| && taken == Laid(values, |values|)
  {
  }

  /** Read the values of the row the top frame stands at and spread its demand. */
  method ReadElement(L: Layout, ghost s: Shape, source: BandSource, values: seq<seq<int>>,
                     frames: seq<DemandFrame>, forwardCounts: seq<nat>, ghost ctx: Context, ghost root: nat,
                     ghost K: Columns, ghost origin: nat)
    returns (status: Status, values': seq<seq<int>>, frames': seq<DemandFrame>, forwardCounts': seq<nat>,
             ghost K': Columns, ghost more: seq<(CodingKind, seq<int>)>)
    requires WellFormed(L, s) && source.Valid()
    requires ColumnsOk(L, s, ctx, K) && RootOk(L, ctx, root) && StackOk(L, s, root, K)
    requires K.values == values && K.frames == frames && EntriesOk(L, ctx.declared, K, forwardCounts)
    requires |frames| != 0 && frames[|frames| - 1].next != NO_INDEX
    requires origin <= source.position && Tracks(L, ctx, values, forwardCounts, source.supply[origin..source.position])
    modifies source
    ensures source.Valid()
    ensures status != InvalidParameter
    ensures status != Success ==> Uncolumned(L, s, ctx.occurrences, ctx.declared, source.supply[origin..])
    ensures status == Success ==>
              && origin <= source.position
              && Tracks(L, ctx, values', forwardCounts', source.supply[origin..source.position])
    ensures status == Success ==>
              && ColumnsOk(L, s, ctx, K') && StackOk(L, s, root, K')
              && K'.values == values' && K'.frames == frames' && EntriesOk(L, ctx.declared, K', forwardCounts')
              && K.mark < K'.mark <= End(s, root)
              && source.delivered == old(source.delivered) + more
              && Deliveries(L, values', |values'|) == Deliveries(L, values, |values|) + more
  {
    hide RowDemanded; hide Untouched; hide BandBalanced; hide DemandFrameOk; hide StackedOk; hide End;
    hide CountPicks; hide RowOk; hide PairOk; hide Deliveries; hide Flatten; hide Tracks; hide Laid; hide RepeatsBad; hide Uncolumned;
    hide Reverse; hide CaseList;
    StandsAt(L, s, ctx, root, K);
    TracksIs(L, ctx, values, forwardCounts, source.supply[origin..source.position]);
    var n := |frames| - 1;
    var e := frames[n].next;
    var count := frames[n].count;
    var element := L.elements[e];
    values', forwardCounts', K' := values, forwardCounts, K;
    frames' := frames[..n] + [frames[n].(next := element.nextSibling)];
    var vs: seq<int> := [];
    more := [];
    if HasBand(element) {
      var ok;
      ok, values', vs, more := FetchBand(L, s, source, values, e, count, ctx, root, K, origin, forwardCounts);
      if !ok {
        return InvalidNetworkResponse, values', frames', forwardCounts', K', more;
      }
    }
    assert source.supply[origin..source.position] <= source.supply[origin..];
    if element.kind == Replication {
      var summed, childCount := SumRepeats(vs);
      if !summed {
        RepeatsRefused(L, s, ctx, root, K, source.supply[origin..], vs);
        return InvalidNetworkResponse, values', frames', forwardCounts', K', more;
      }
      if element.firstChild != NO_INDEX {
        frames' := frames' + [DemandFrame(element.firstChild, childCount)];
      }
      K' := RepeatsRead(L, s, ctx, root, K, e, vs);
      EntriesKept(L, ctx.declared, K, K', forwardCounts);
    } else if element.kind == Union {
      var caseFrames := UnionFrames(L, s, e, vs);
      frames' := PushReversed(frames', caseFrames);
      K' := CasesRead(L, s, ctx, root, K, e, vs);
      EntriesKept(L, ctx.declared, K, K', forwardCounts);
    } else if element.kind == Call {
      if !element.backwardCall {
        var t := element.targetCallable;
        if forwardCounts[t] + count > SIZE_MAX {
          assert EntryOk(L, ctx.declared, K, forwardCounts, t);
          CallRefused(L, s, ctx, root, K, source.supply[origin..], e, L.callables[t].elementIndex);
          return IntegerOverflow, values', frames', forwardCounts', K', more;
        }
        TrackCall(L, ctx, values, forwardCounts, source.supply[origin..source.position], t, count);
        forwardCounts' := forwardCounts[t := forwardCounts[t] + count];
      }
      K' := CallRead(L, s, ctx, root, K, e, forwardCounts);
    } else {
      K' := LeafRead(L, s, ctx, root, K, e, vs);
      EntriesKept(L, ctx.declared, K, K', forwardCounts);
    }
    status := Success;
  }

  lemma EntriesKept(L: Layout, declared: seq<nat>, K: Columns, K': Columns, forwardCounts: seq<nat>)
    requires EntriesOk(L, declared, K, forwardCounts) && |K'.demand| == |K.demand|
    requires forall c: nat :: c < |L.callables| ==> L.callables[c].elementIndex < |K.demand|
    requires forall c: nat :: c < |L.callables| ==>
               K'.demand[L.callables[c].elementIndex] == K.demand[L.callables[c].elementIndex]
    ensures EntriesOk(L, declared, K', forwardCounts)
  {
    forall c: nat | c < |L.callables|
      ensures EntryOk(L, declared, K', forwardCounts, c)
    {
      assert EntryOk(L, declared, K, forwardCounts, c);
    }
  }

  /** Rows of other kinds keep their demand while row e is read. */
  ghost predicate CallablesKept(L: Layout, K: Columns, K': Columns) {
    && |K.demand| == |K'.demand| == |L.elements|
    && (forall c: nat :: c < |L.callables| ==> L.callables[c].elementIndex < |L.elements|)
    && forall c: nat :: c < |L.callables| ==>
         K'.demand[L.callables[c].elementIndex] == K.demand[L.callables[c].elementIndex]
  }

  /** What every step starts from: the top frame stands at row e, and vs fits what it asks for. */
  ghost predicate ReadyFor(L: Layout, s: Shape, ctx: Context, root: nat, K: Columns, e: nat, vs: seq<int>)
    requires WellFormed(L, s)
  {
    && ColumnsOk(L, s, ctx, K) && RootOk(L, ctx, root) && StackOk(L, s, root, K)
    && K.frames != [] && K.frames[|K.frames| - 1].next == e != NO_INDEX
    && (e < |L.elements| && HasBand(L.elements[e]) ==> |vs| == K.frames[|K.frames| - 1].count)
  }

  lemma ReadCallables(L: Layout, s: Shape, ctx: Context, root: nat, K: Columns, e: nat, vs: seq<int>)
    requires WellFormed(L, s) && ReadyFor(L, s, ctx, root, K, e, vs)
    ensures e < |L.elements| && (HasBand(L.elements[e]) ==> L.elements[e].bandIndex < |L.bands|)
    ensures CallablesKept(L, K, Read(L, K, e, vs))
  {
    StandsAt(L, s, ctx, root, K);
    forall c: nat | c < |L.callables|
      ensures L.callables[c].elementIndex != e
    {
      assert CallableOk(L, c);
    }
  }

  lemma RepeatsRead(L: Layout, s: Shape, ctx: Context, root: nat, K: Columns, e: nat, vs: seq<int>) returns (K': Columns)
    requires WellFormed(L, s) && ReadyFor(L, s, ctx, root, K, e, vs)
    requires e < |L.elements| && L.elements[e].kind == Replication
    requires (forall k :: 0 <= k < |vs| ==> vs[k] >= 0) && Sum(vs) >= 0
    ensures ColumnsOk(L, s, ctx, K') && StackOk(L, s, root, K') && CallablesKept(L, K, K') && K.mark < K'.mark
    ensures L.elements[e].bandIndex < |K.values| && K'.values == K.values[L.elements[e].bandIndex := vs]
    ensures var n := |K.frames| - 1;
            K'.frames == K.frames[..n] + [K.frames[n].(next := L.elements[e].nextSibling)]
              + if L.elements[e].firstChild == NO_INDEX then [] else [DemandFrame(L.elements[e].firstChild, Sum(vs))]
  {
    hide RowDemanded; hide Untouched; hide BandBalanced; hide DemandFrameOk; hide End;
    StandsAt(L, s, ctx, root, K);
    ReadCallables(L, s, ctx, root, K, e, vs);
    ReadRow(L, s, ctx, root, K, e, vs);
    ReadStack(L, s, root, K, e, vs);
    var K1 := Read(L, K, e, vs);
    RepeatsPaid(L, s, ctx, root, K1, e, K.frames[|K.frames| - 1].count, vs);
    K' := PayRepeats(L, K1, e, vs);
  }

  lemma CasesRead(L: Layout, s: Shape, ctx: Context, root: nat, K: Columns, e: nat, vs: seq<int>) returns (K': Columns)
    requires WellFormed(L, s) && ReadyFor(L, s, ctx, root, K, e, vs)
    requires e < |L.elements| && L.elements[e].kind == Union
    ensures ColumnsOk(L, s, ctx, K') && StackOk(L, s, root, K') && CallablesKept(L, K, K') && K.mark < K'.mark
    ensures L.elements[e].bandIndex < |K.values| && K'.values == K.values[L.elements[e].bandIndex := vs]
    ensures Within(L.elements[e].firstChild, |L.elements|)
    ensures var n := |K.frames| - 1;
            K'.frames == K.frames[..n] + [K.frames[n].(next := L.elements[e].nextSibling)]
              + Reverse(CaseList(L, s, vs, L.elements[e].firstChild))
  {
    hide RowDemanded; hide Untouched; hide BandBalanced; hide DemandFrameOk; hide End; hide CountPicks;
    hide PayCases; hide CaseList; hide Reverse;
    StandsAt(L, s, ctx, root, K);
    ReadCallables(L, s, ctx, root, K, e, vs);
    ReadRow(L, s, ctx, root, K, e, vs);
    ReadStack(L, s, root, K, e, vs);
    var K1 := Read(L, K, e, vs);
    CasesFitFirst(L, s, root, K1, e);
    CasesPaid(L, s, ctx, root, K1, e, K.frames[|K.frames| - 1].count, vs);
    assert RowOk(L, s, e);
    var c := L.elements[e].firstChild;
    assert RowOk(L, s, c);
    K' := PayCases(L, s, K1, vs, c);
    PayCasesEffect(L, s, K1, vs, c);
    forall d: nat | d < |L.callables|
      ensures K'.demand[L.callables[d].elementIndex] == K.demand[L.callables[d].elementIndex]
    {
      assert CallableOk(L, d);
    }
  }

  lemma CallRead(L: Layout, s: Shape, ctx: Context, root: nat, K: Columns, e: nat, forwardCounts: seq<nat>)
    returns (K': Columns)
    requires WellFormed(L, s) && ReadyFor(L, s, ctx, root, K, e, [])
    requires e < |L.elements| && L.elements[e].kind == Call && EntriesOk(L, ctx.declared, K, forwardCounts)
    ensures ColumnsOk(L, s, ctx, K') && StackOk(L, s, root, K') && K.mark < K'.mark && K'.values == K.values
    ensures L.elements[e].targetCallable < |forwardCounts|
    ensures var t := L.elements[e].targetCallable;
            EntriesOk(L, ctx.declared, K', if L.elements[e].backwardCall then forwardCounts
                                  else forwardCounts[t := forwardCounts[t] + K.frames[|K.frames| - 1].count])
    ensures var n := |K.frames| - 1;
            K'.frames == K.frames[..n] + [K.frames[n].(next := L.elements[e].nextSibling)]
  {
    hide RowDemanded; hide Untouched; hide BandBalanced; hide DemandFrameOk; hide End;
    StandsAt(L, s, ctx, root, K);
    ReadCallables(L, s, ctx, root, K, e, []);
    ReadRow(L, s, ctx, root, K, e, []);
    ReadStack(L, s, root, K, e, []);
    var K1 := Read(L, K, e, []);
    var n := K.frames[|K.frames| - 1].count;
    CallPaid(L, s, ctx, root, K1, e, n, []);
    K' := PayCall(L, K1, e, n);
    var t := L.elements[e].targetCallable;
    var fc := if L.elements[e].backwardCall then forwardCounts else forwardCounts[t := forwardCounts[t] + n];
    forall c: nat | c < |L.callables|
      ensures EntryOk(L, ctx.declared, K', fc, c)
    {
      assert EntryOk(L, ctx.declared, K, forwardCounts, c) && CallableOk(L, c);
    }
  }

  lemma LeafRead(L: Layout, s: Shape, ctx: Context, root: nat, K: Columns, e: nat, vs: seq<int>) returns (K': Columns)
    requires WellFormed(L, s) && ReadyFor(L, s, ctx, root, K, e, vs)
    requires e < |L.elements|
    requires L.elements[e].kind != Replication && L.elements[e].kind != Union && L.elements[e].kind != Call
    ensures ColumnsOk(L, s, ctx, K') && StackOk(L, s, root, K') && CallablesKept(L, K, K') && K.mark < K'.mark
    ensures HasBand(L.elements[e]) ==> L.elements[e].bandIndex < |K.values|
    ensures K'.values == if HasBand(L.elements[e]) then K.values[L.elements[e].bandIndex := vs] else K.values
    ensures var n := |K.frames| - 1;
            K'.frames == K.frames[..n] + [K.frames[n].(next := L.elements[e].nextSibling)]
  {
    hide RowDemanded; hide Untouched; hide BandBalanced; hide DemandFrameOk; hide End;
    StandsAt(L, s, ctx, root, K);
    ReadCallables(L, s, ctx, root, K, e, vs);
    ReadRow(L, s, ctx, root, K, e, vs);
    ReadStack(L, s, root, K, e, vs);
    K' := Read(L, K, e, vs);
    LeafPaid(L, s, ctx, K', e, K.frames[|K.frames| - 1].count, vs);
  }

  /** Read all bands below one callable, or below the top level. */
  method ReadSequence(L: Layout, ghost s: Shape, source: BandSource, values: seq<seq<int>>,
                      firstElement: nat, count: nat, forwardCounts: seq<nat>,
                      ghost ctx: Context, ghost root: nat, ghost K: Columns, ghost origin: nat)
    returns (status: Status, values': seq<seq<int>>, forwardCounts': seq<nat>,
             ghost K': Columns, ghost more: seq<(CodingKind, seq<int>)>)
    requires WellFormed(L, s) && source.Valid()
    requires ColumnsOk(L, s, ctx, K) && RootOk(L, ctx, root) && StackOk(L, s, root, K)
    requires K.mark <= End(s, root)
    requires K.values == values && EntriesOk(L, ctx.declared, K, forwardCounts)
    requires K.frames == if firstElement == NO_INDEX then [] else [DemandFrame(firstElement, count)]
    requires origin <= source.position && Tracks(L, ctx, values, forwardCounts, source.supply[origin..source.position])
    modifies source
    ensures source.Valid()
    ensures status != InvalidParameter
    ensures status != Success ==> Uncolumned(L, s, ctx.occurrences, ctx.declared, source.supply[origin..])
    ensures status == Success ==>
              && origin <= source.position
              && Tracks(L, ctx, values', forwardCounts', source.supply[origin..source.position])
    ensures status == Success ==>
              && ColumnsOk(L, s, ctx, K') && K'.frames == [] && K'.mark <= End(s, root)
              && K'.values == values' && EntriesOk(L, ctx.declared, K', forwardCounts')
             
              && source.delivered == old(source.delivered) + more
              && Deliveries(L, values', |values'|) == Deliveries(L, values, |values|) + more
  {
    hide RowDemanded; hide Untouched; hide BandBalanced; hide DemandFrameOk; hide StackedOk; hide End;
    hide RowOk; hide PairOk; hide Deliveries; hide Flatten; hide Tracks; hide Uncolumned;
    values', forwardCounts', K', more := values, forwardCounts, K, [];
    var frames: seq<DemandFrame> := [];
    if firstElement != NO_INDEX {
      frames := [DemandFrame(firstElement, count)];
    }
    while |frames| != 0
      invariant source.Valid()
      invariant ColumnsOk(L, s, ctx, K') && StackOk(L, s, root, K') && K'.mark <= End(s, root)
      invariant K'.values == values' && K'.frames == frames && EntriesOk(L, ctx.declared, K', forwardCounts')
      invariant origin <= source.position && Tracks(L, ctx, values', forwardCounts', source.supply[origin..source.position])
      invariant source.delivered == old(source.delivered) + more
      invariant Deliveries(L, values', |values'|) == Deliveries(L, values, |values|) + more
      decreases |L.elements| - K'.mark, |frames|
    {
      // the stack never outgrows its allocation of one frame per element and one more
      StackBounded(L, s, root, K');
      assert |frames| <= |L.elements|;
      if frames[|frames| - 1].next == NO_INDEX {
        PopColumn(L, s, ctx, root, K');
        frames := frames[..|frames| - 1];
        EntriesKept(L, ctx.declared, K', K'.(frames := frames, owners := K'.owners[..|K'.owners| - 1]), forwardCounts');
        K' := K'.(frames := frames, owners := K'.owners[..|K'.owners| - 1]);
      } else {
        ghost var was := more;
        status, values', frames, forwardCounts', K', more :=
          ReadElement(L, s, source, values', frames, forwardCounts', ctx, root, K', origin);
        if status != Success {
          return;
        }
        more := was + more;
      }
    }
    status := Success;
  }

  lemma {:induction false} FlagsGrow(callables: seq<CallableEntry>, n: nat, m: nat)
    requires n <= m <= |callables|
    ensures CountFlags(callables, n) <= CountFlags(callables, m)
    decreases m - n
  {
    if n < m { FlagsGrow(callables, n, m - 1); }
  }

  /** Hand the declared backward entries out to the callables that have any. */
  method CallableEntries(L: Layout, backwardCalls: seq<nat>) returns (declared: seq<nat>)
    requires CountFlags(L.callables, |L.callables|) == |backwardCalls|
    ensures declared == DeclaredOf(L, backwardCalls, |L.callables|)
  {
    declared := [];
    var backwardIndex := 0;
    for c := 0 to |L.callables|
      invariant backwardIndex == CountFlags(L.callables, c) <= |backwardCalls|
      invariant declared == DeclaredOf(L, backwardCalls, c)
    {
      FlagsGrow(L.callables, c + 1, |L.callables|);
      if L.callables[c].hasBackwardCall {
        declared := declared + [backwardCalls[backwardIndex]];
        backwardIndex := backwardIndex + 1;
      } else {
        declared := declared + [0];
      }
    }
    // every declared count has been handed out
    assert backwardIndex == |backwardCalls|;
  }

  /** The first callable is entered once per occurrence before any call has been counted. */
  lemma InitialEntries(L: Layout, s: Shape, ctx: Context, forwardCounts: seq<nat>)
    requires WellFormed(L, s) && |ctx.declared| == |L.callables| == |forwardCounts|
    requires forall c: nat :: c < |L.callables| ==> forwardCounts[c] == if c == 0 then ctx.occurrences else 0
    ensures EntriesOk(L, ctx.declared, Initial(L, ctx), forwardCounts)
  {
    forall c: nat | c < |L.callables|
      ensures EntryOk(L, ctx.declared, Initial(L, ctx), forwardCounts, c)
    {
      assert CallableOk(L, c);
    }
  }

  lemma {:induction false} EmptyDeliveries(L: Layout, values: seq<seq<int>>, n: nat)
    requires n <= |L.bands| == |values| && forall b :: 0 <= b < n ==> values[b] == []
    ensures Deliveries(L, values, n) == []
  {
    if n > 0 { EmptyDeliveries(L, values, n - 1); }
  }

  /** The bodies of consecutive callables do not overlap. */
  lemma CallablesApart(L: Layout, s: Shape, c: nat)
    requires WellFormed(L, s) && c + 1 < |L.callables|
    ensures L.callables[c].elementIndex < |s.parent|
    ensures End(s, L.callables[c].elementIndex) <= L.callables[c + 1].elementIndex
  {
    hide End;
    assert CallableOk(L, c) && CallableOk(L, c + 1);
    var a, b := L.callables[c].elementIndex, L.callables[c + 1].elementIndex;
    assert RowOk(L, s, a) && RowOk(L, s, b);
    assert RowOk(L, s, s.parent[a]) && RowOk(L, s, s.parent[b]);
    EndSibling(L, s, a, b);
  }

  lemma {:induction false} NothingLaid(values: seq<seq<int>>, n: nat)
    requires n <= |values| && forall b :: 0 <= b < n ==> values[b] == []
    ensures Laid(values, n) == []
  {
    if n > 0 { NothingLaid(values, n - 1); }
  }

  lemma NothingTaken(L: Layout, ctx: Context, values: seq<seq<int>>, forwardCounts: seq<nat>)
    requires |values| == |L.bands| && |forwardCounts| == |L.callables| == |ctx.declared| && ctx.started == 0
    requires forall b :: 0 <= b < |values| ==> values[b] == []
    ensures Tracks(L, ctx, values, forwardCounts, [])
  {
    NothingLaid(values, |values|);
  }

  /** Starting the next body: its entries have just been checked. */
  lemma TrackEntry(L: Layout, ctx: Context, values: seq<seq<int>>, forwardCounts: seq<nat>, taken: seq<int>)
    requires Tracks(L, ctx, values, forwardCounts, taken) && ctx.started < |L.callables|
    requires EntryFits(ctx, forwardCounts, ctx.started)
    ensures Tracks(L, ctx.(started := ctx.started + 1), values, forwardCounts, taken)
  {
    var ctx' := ctx.(started := ctx.started + 1);
    forall c: nat | c < ctx'.started && c < |L.callables|
      ensures EntryFits(ctx', forwardCounts, c)
    {
      assert c < ctx.started ==> EntryFits(ctx, forwardCounts, c);
    }
  }

  /** What was read to the end are the columns the supply starts with. */
  lemma ReadIsColumned(L: Layout, s: Shape, ctx: Context, K: Columns, forwardCounts: seq<nat>, supply: seq<int>, origin: nat, end: nat)
    requires WellFormed(L, s) && ColumnBalanced(L, s, ctx.occurrences, ctx.declared, K.values, K.demand)
    requires origin <= end <= |supply| && Tracks(L, ctx, K.values, forwardCounts, supply[origin..end])
    requires EntriesOk(L, ctx.declared, K, forwardCounts) && ctx.started == |L.callables|
    ensures Columned(L, s, ctx.occurrences, ctx.declared, supply[origin..], K.values, K.demand)
    ensures end == origin + |Laid(K.values, |K.values|)|
  {
    hide WellFormed; hide ColumnBalanced; hide Laid; hide TotalFits;
    assert supply[origin..end] <= supply[origin..];
    forall c: nat | c < |L.callables|
      ensures EntriesFit(L, K.demand, c)
    {
      assert EntryFits(ctx, forwardCounts, c) && EntryOk(L, ctx.declared, K, forwardCounts, c);
    }
  }

  /** Read the bands of a layout without callables. */
  method ReadTop(L: Layout, ghost s: Shape, source: BandSource, occurrences: nat)
    returns (status: Status, values: seq<seq<int>>, ghost demand: seq<nat>)
    requires WellFormed(L, s) && source.Valid() && L.callables == []
    modifies source
    ensures source.Valid()
    ensures status != InvalidParameter
    ensures status != Success ==> Uncolumned(L, s, occurrences, [], source.supply[old(source.position)..])
    ensures status == Success ==>
              && Columned(L, s, occurrences, [], source.supply[old(source.position)..], values, demand)
              && source.position == old(source.position) + |Laid(values, |values|)|
              && source.delivered == old(source.delivered) + Deliveries(L, values, |values|)
  {
    hide RowDemanded; hide Untouched; hide BandBalanced; hide DemandFrameOk; hide StackedOk; hide End;
    hide RowOk; hide PairOk; hide Tracks; hide Uncolumned; hide Columned; hide Laid; hide ColumnFlow; hide Initial; hide RowBalancedWith;
    ghost var origin := source.position;
    ghost var ctx := Context(occurrences, [], 0);
    ghost var K := Initial(L, ctx);
    InitialShape(L, ctx);
    InitialTop(L, s, ctx);
    values := seq(|L.bands|, _ => []);
    EmptyDeliveries(L, values, |values|);
    NothingTaken(L, ctx, values, []);
    assert source.supply[origin..origin] == [];
    assert RowIndexed(L, 0);
    var body := L.elements[0].firstChild;
    if body != NO_INDEX {
      K := PushFrame(K, body, occurrences, 0);
    }
    ghost var more;
    var forwardCounts;
    status, values, forwardCounts, K, more :=
      ReadSequence(L, s, source, values, body, occurrences, [], ctx, 0, K, origin);
    demand := K.demand;
    if status == Success {
      AllRead(L, s, ctx, K);
      ReadIsColumned(L, s, ctx, K, forwardCounts, source.supply, origin, source.position);
    }
  }

  /** Read the bands of one callable's body. */
  method ReadBody(L: Layout, ghost s: Shape, source: BandSource, values: seq<seq<int>>, declared: seq<nat>,
                  forwardCounts: seq<nat>, c: nat, ghost occurrences: nat, ghost K: Columns, ghost origin: nat)
    returns (status: Status, values': seq<seq<int>>, forwardCounts': seq<nat>,
             ghost K': Columns, ghost more: seq<(CodingKind, seq<int>)>)
    requires WellFormed(L, s) && source.Valid() && c < |L.callables|
    requires ColumnsOk(L, s, Context(occurrences, declared, c), K) && K.frames == []
    requires K.mark <= L.callables[c].elementIndex
    requires K.values == values && EntriesOk(L, declared, K, forwardCounts)
    requires origin <= source.position
    requires Tracks(L, Context(occurrences, declared, c), values, forwardCounts, source.supply[origin..source.position])
    modifies source
    ensures source.Valid()
    ensures status != InvalidParameter
    ensures status != Success ==> Uncolumned(L, s, occurrences, declared, source.supply[origin..])
    ensures status == Success ==>
              && origin <= source.position
              && Tracks(L, Context(occurrences, declared, c + 1), values', forwardCounts', source.supply[origin..source.position])
    ensures status == Success ==>
              && ColumnsOk(L, s, Context(occurrences, declared, c + 1), K') && K'.frames == []
              && (c + 1 < |L.callables| ==> K'.mark <= L.callables[c + 1].elementIndex)
              && K'.values == values' && EntriesOk(L, declared, K', forwardCounts')
              && source.delivered == old(source.delivered) + more
              && Deliveries(L, values', |values'|) == Deliveries(L, values, |values|) + more
  {
    hide RowDemanded; hide Untouched; hide BandBalanced; hide DemandFrameOk; hide StackedOk; hide End;
    hide RowOk; hide PairOk; hide Uncolumned; hide Tracks; hide Deliveries; hide Flatten;
    values', forwardCounts', K', more := values, forwardCounts, K, [];
    var entryCount := forwardCounts[c] + declared[c];
    ghost var ctx := Context(occurrences, declared, c);
    TracksIs(L, ctx, values, forwardCounts, source.supply[origin..source.position]);
    assert source.supply[origin..source.position] <= source.supply[origin..];
    var callableElement := L.callables[c].elementIndex;
    assert EntryOk(L, declared, K, forwardCounts, c);
    if entryCount > SIZE_MAX {
      EntryRefused(L, s, ctx, K, source.supply[origin..], callableElement);
      return IntegerOverflow, values', forwardCounts', K', more;
    }
    BeginCallable(L, s, ctx, K);
    TrackEntry(L, ctx, values, forwardCounts, source.supply[origin..source.position]);
    ghost var K1 := Begin(L, K, callableElement);
    EntriesKept(L, declared, K, K1, forwardCounts);
    assert RowIndexed(L, callableElement);
    status, values', forwardCounts', K', more :=
      ReadSequence(L, s, source, values, L.elements[callableElement].firstChild, entryCount, forwardCounts,
                   Context(occurrences, declared, c + 1), callableElement, K1, origin);
    if c + 1 < |L.callables| {
      CallablesApart(L, s, c);
    }
  }

  /** Read the bands of each callable's body in turn; calls only add demand to bodies still to come. */
  method ReadBodies(L: Layout, ghost s: Shape, source: BandSource, occurrences: nat, declared: seq<nat>)
    returns (status: Status, values: seq<seq<int>>, ghost demand: seq<nat>)
    requires WellFormed(L, s) && source.Valid() && L.callables != [] && |declared| == |L.callables|
    modifies source
    ensures source.Valid()
    ensures status != InvalidParameter
    ensures status != Success ==> Uncolumned(L, s, occurrences, declared, source.supply[old(source.position)..])
    ensures status == Success ==>
              && Columned(L, s, occurrences, declared, source.supply[old(source.position)..], values, demand)
              && source.position == old(source.position) + |Laid(values, |values|)|
              && source.delivered == old(source.delivered) + Deliveries(L, values, |values|)
  {
    hide RowDemanded; hide Untouched; hide BandBalanced; hide DemandFrameOk; hide StackedOk; hide End;
    hide RowOk; hide PairOk; hide Tracks; hide Uncolumned; hide Columned; hide Laid; hide ColumnFlow; hide Initial; hide RowBalancedWith;
    hide EntryOk; hide Deliveries; hide Flatten;
    var forwardCounts: seq<nat> := seq(|L.callables|, c => if c == 0 then occurrences else 0);
    ghost var origin := source.position;
    ghost var ctx := Context(occurrences, declared, 0);
    ghost var K := Initial(L, ctx);
    InitialShape(L, ctx);
    InitialEntries(L, s, ctx, forwardCounts);
    InitialCallables(L, s, ctx);
    values := seq(|L.bands|, _ => []);
    EmptyDeliveries(L, values, |values|);
    NothingTaken(L, ctx, values, forwardCounts);
    assert source.supply[origin..origin] == [];
    demand := [];
    var c := 0;
    while c < |L.callables|
      invariant c <= |L.callables|
      invariant source.Valid() && origin <= source.position
      invariant Tracks(L, Context(occurrences, declared, c), values, forwardCounts, source.supply[origin..source.position])
      invariant ColumnsOk(L, s, Context(occurrences, declared, c), K) && K.frames == []
      invariant c < |L.callables| ==> K.mark <= L.callables[c].elementIndex
      invariant K.values == values && EntriesOk(L, declared, K, forwardCounts)
      invariant source.delivered == old(source.delivered) + Deliveries(L, values, |values|)
    {
      ghost var more;
      status, values, forwardCounts, K, more :=
        ReadBody(L, s, source, values, declared, forwardCounts, c, occurrences, K, origin);
      if status != Success {
        return;
      }
      c := c + 1;
    }
    AllRead(L, s, Context(occurrences, declared, c), K);
    ReadIsColumned(L, s, Context(occurrences, declared, c), K, forwardCounts, source.supply, origin, source.position);
    demand := K.demand;
    status := Success;
  }

  method ReadAll(L: Layout, ghost s: Shape, source: BandSource, occurrences: nat, declared: seq<nat>)
    returns (status: Status, values: seq<seq<int>>, ghost demand: seq<nat>)
    requires WellFormed(L, s) && source.Valid() && |declared| == |L.callables|
    modifies source
    ensures source.Valid()
    ensures status != InvalidParameter
    ensures status != Success ==> Uncolumned(L, s, occurrences, declared, source.supply[old(source.position)..])
    ensures status == Success ==>
              && Columned(L, s, occurrences, declared, source.supply[old(source.position)..], values, demand)
              && source.position == old(source.position) + |Laid(values, |values|)|
              && source.delivered == old(source.delivered) + Deliveries(L, values, |values|)
  {
    hide WellFormed; hide Columned; hide Uncolumned; hide Laid; hide Flatten; hide Deliveries;
    if |L.callables| == 0 {
      assert declared == [];
      status, values, demand := ReadTop(L, s, source, occurrences);
    } else {
      status, values, demand := ReadBodies(L, s, source, occurrences, declared);
    }
  }
}
