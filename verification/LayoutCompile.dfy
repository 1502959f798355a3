// Compiling a layout text as a function of the text: parse, then resolve the calls between callables.
module LayoutCompile {
  import opened Common
  import opened LayoutModel
  import opened LayoutParser
  import opened LayoutParserSound

  /** Give row i its call target; None when the target does not exist. */
  function ResolveRow(L: Layout, i: nat): (r: Option<Layout>)
    requires i < |L.elements|
    ensures r.Some? ==> |r.value.elements| == |L.elements| && |r.value.callables| == |L.callables|
  {
    var e := L.elements[i];
    if e.kind != Call then Some(L)
    else
      var target := e.callableIndex + e.callOffset;
      if target < 0 || target >= |L.callables| then None
      else
        var backward := e.callOffset <= 0;
        var first := backward && !L.callables[target].hasBackwardCall;
        Some(L.(elements := L.elements[i := e.(targetCallable := target, backwardCall := backward)],
                callables := if first then L.callables[target := L.callables[target].(hasBackwardCall := true)]
                             else L.callables,
                backwardCallables := L.backwardCallables + if first then 1 else 0))
  }

  /** Resolve the calls among the first n rows. */
  function ResolveCalls(L: Layout, n: nat): (r: Option<Layout>)
    requires n <= |L.elements|
    ensures r.Some? ==> |r.value.elements| == |L.elements| && |r.value.callables| == |L.callables|
  {
    if n == 0 then Some(L)
    else
      match ResolveCalls(L, n - 1)
      case None => None
      case Some(m) => ResolveRow(m, n - 1)
  }

  /** A layout with callables must begin with one. */
  predicate CallablesFirst(L: Layout) {
    |L.callables| != 0 ==> |L.elements| > 0 && L.elements[0].firstChild == L.callables[0].elementIndex
  }

  /** The whole compiler as a function of the text. */
  function CompileText(text: string): Option<Layout> {
    if |text| > MAX_LAYOUT_LENGTH then None
    else
      match ParseAll(text, START)
      case None => None
      case Some(st) =>
        if st.position != |text| then None
        else
          match ResolveCalls(TablesOf(st), |st.elements|)
          case None => None
          case Some(L) => if CallablesFirst(L) then Some(L) else None
  }

  //
  // Resolution keeps the tree and settles the flags
  //

  /** L is st's tables with the first n calls resolved. */
  ghost predicate Resolved(st: ParseState, L: Layout, n: nat) {
    && |L.elements| == |st.elements| && |L.callables| == |st.callables|
    && L.bands == st.bands && L.selectors == st.selectors
    && (forall i: nat :: i < |L.elements| ==> RowResolved(st, L, n, i))
    && (forall c: nat :: c < |L.callables| ==> L.callables[c].elementIndex == st.callables[c].elementIndex)
    && (forall c: nat :: c < |L.callables| ==> FlagUpTo(L, n, c))
    && L.backwardCallables == CountFlags(L.callables, |L.callables|)
  }

  predicate RowResolved(st: ParseState, L: Layout, n: nat, i: nat)
    requires i < |L.elements| == |st.elements| && |L.callables| == |st.callables|
  {
    var e := st.elements[i];
    if e.kind == Call && i < n then
      var target := e.callableIndex + e.callOffset;
      && 0 <= target < |L.callables|
      && L.elements[i] == e.(targetCallable := target, backwardCall := e.callOffset <= 0)
    else L.elements[i] == e
  }

  ghost predicate FlagUpTo(L: Layout, n: nat, c: nat)
    requires c < |L.callables|
  {
    L.callables[c].hasBackwardCall <==> exists i: nat :: i < |L.elements| && i < n && BackwardTo(L, i, c)
  }

  lemma {:induction false} CountFlagsSet(callables: seq<CallableEntry>, c: nat, n: nat)
    requires c < |callables| && n <= |callables| && !callables[c].hasBackwardCall
    ensures var after := callables[c := callables[c].(hasBackwardCall := true)];
            CountFlags(after, n) == CountFlags(callables, n) + if c < n then 1 else 0
  {
    if n > 0 { CountFlagsSet(callables, c, n - 1); }
  }

  lemma {:induction false} CountFlagsNone(callables: seq<CallableEntry>, n: nat)
    requires n <= |callables| && forall c :: 0 <= c < n ==> !callables[c].hasBackwardCall
    ensures CountFlags(callables, n) == 0
  {
    if n > 0 { CountFlagsNone(callables, n - 1); }
  }

  lemma ResolveRowKeeps(st: ParseState, L: Layout, n: nat)
    requires Inv(st) && Resolved(st, L, n) && n < |L.elements| && ResolveRow(L, n).Some?
    ensures Resolved(st, ResolveRow(L, n).value, n + 1)
  {
    hide PairOk; hide FrameIn; hide FrameRowIn; hide Open; hide RowIn;
    var M := ResolveRow(L, n).value;
    assert RowResolved(st, L, n, n);
    var n' := n + 1;
    forall i: nat | i < |M.elements|
      ensures RowResolved(st, M, n', i)
    {
      assert RowResolved(st, L, n, i);
    }
    forall c: nat | c < |M.callables|
      ensures FlagUpTo(M, n', c)
    {
      assert FlagUpTo(L, n, c);
      forall i: nat | i < n
        ensures BackwardTo(M, i, c) <==> BackwardTo(L, i, c)
      {
      }
      if M.callables[c].hasBackwardCall {
        if L.callables[c].hasBackwardCall {
          var i: nat :| i < n && BackwardTo(L, i, c);
          assert BackwardTo(M, i, c);
        } else {
          assert BackwardTo(M, n, c);
        }
      } else {
        forall i: nat | i < n + 1
          ensures !BackwardTo(M, i, c)
        {
          if i < n { assert BackwardTo(M, i, c) <==> BackwardTo(L, i, c); }
        }
      }
    }
    var e := L.elements[n];
    if e.kind == Call {
      var target := e.callableIndex + e.callOffset;
      if !L.callables[target].hasBackwardCall {
        CountFlagsSet(L.callables, target, |L.callables|);
      }
    }
  }

  lemma {:induction false} ResolveKeeps(st: ParseState, n: nat)
    requires Inv(st) && n <= |st.elements| && ResolveCalls(TablesOf(st), n).Some?
    ensures Resolved(st, ResolveCalls(TablesOf(st), n).value, n)
  {
    hide ResolveRow; hide RowIn; hide PairOk; hide FrameIn; hide FrameRowIn;
    var L := TablesOf(st);
    if n == 0 {
      CountFlagsNone(st.callables, |st.callables|);
      forall i: nat | i < |L.elements|
        ensures RowResolved(st, L, 0, i)
      {
      }
      forall c: nat | c < |L.callables|
        ensures FlagUpTo(L, 0, c)
      {
      }
    } else {
      ResolveKeeps(st, n - 1);
      ResolveRowKeeps(st, ResolveCalls(L, n - 1).value, n - 1);
    }
  }

  lemma ResolvedRowOk(st: ParseState, L: Layout, i: nat)
    requires Inv(st) && st.frames == [] && Resolved(st, L, |st.elements|) && i < |L.elements|
    ensures |L.elements| == |st.parent| && |L.bands| == |st.owner| && RowOk(L, ShapeOf(st), i)
  {
    hide PairOk; hide FrameIn; hide FrameRowIn; hide BandOk; hide FlagUpTo;
    assert RowIn(st, i) && RowResolved(st, L, |st.elements|, i);
    assert !Open(st, i) && !Open(st, st.parent[i]);
    if i > 0 { assert RowResolved(st, L, |st.elements|, st.parent[i]); }
    var e := L.elements[i];
    if e.kind == Call {
      var t := e.targetCallable;
      if !e.backwardCall && st.elements[i].callableIndex + 1 < t {
        assert st.callables[st.elements[i].callableIndex + 1].elementIndex < st.callables[t].elementIndex;
      }
    }
  }

  lemma ResolvedPairOk(st: ParseState, L: Layout, i: nat, k: nat)
    requires Inv(st) && Resolved(st, L, |st.elements|) && i < k < |L.elements|
    ensures |st.parent| == |L.elements| && PairOk(L, ShapeOf(st), i, k)
  {
    hide RowIn; hide FrameIn; hide FrameRowIn; hide BandOk; hide FlagUpTo; hide Contains;
    assert PairOk(TablesOf(st), ShapeOf(st), i, k);
    assert RowResolved(st, L, |st.elements|, i) && RowResolved(st, L, |st.elements|, k);
    forall v: int
      ensures Contains(L, i, v) <==> Contains(TablesOf(st), i, v)
      ensures Contains(L, k, v) <==> Contains(TablesOf(st), k, v)
    {
      ContainsSame(TablesOf(st), L, i, v);
      ContainsSame(TablesOf(st), L, k, v);
    }
  }

  lemma ContainsSame(L: Layout, M: Layout, i: nat, v: int)
    requires |L.elements| == |M.elements| && i < |L.elements| && L.selectors == M.selectors
    requires L.elements[i].selectorOffset == M.elements[i].selectorOffset
    requires L.elements[i].selectorCount == M.elements[i].selectorCount
    ensures Contains(L, i, v) <==> Contains(M, i, v)
  {
  }

  /** A finished parse with its calls resolved is well formed. */
  lemma ResolvedWellFormed(st: ParseState, L: Layout)
    requires Inv(st) && st.frames == [] && Resolved(st, L, |st.elements|)
    ensures WellFormed(L, ShapeOf(st))
  {
    hide RowIn; hide FrameIn; hide FrameRowIn; hide RowOk; hide PairOk; hide RowResolved;
    var s := ShapeOf(st);
    forall i: nat | i < |L.elements|
      ensures RowOk(L, s, i) && RowIndexed(L, i)
    {
      ResolvedRowOk(st, L, i);
      RowOkIndexed(L, s, i);
    }
    forall i: nat, k: nat | i < k < |L.elements|
      ensures PairOk(L, s, i, k)
    {
      ResolvedPairOk(st, L, i, k);
    }
    ResolvedTables(st, L);
  }

  lemma RowOkIndexed(L: Layout, s: Shape, i: nat)
    requires |s.parent| == |L.elements| && |s.owner| == |L.bands| && i < |L.elements| && RowOk(L, s, i)
    ensures RowIndexed(L, i)
  {
  }

  lemma ResolvedTables(st: ParseState, L: Layout)
    requires Inv(st) && Resolved(st, L, |st.elements|)
    ensures |st.owner| == |L.bands|
    ensures forall b: nat :: b < |L.bands| ==> BandOk(L, ShapeOf(st), b)
    ensures forall c: nat :: c < |L.callables| ==> CallableOk(L, c) && L.callables[c].elementIndex < |L.elements|
    ensures forall c: nat :: c < |L.callables| ==> FlagOk(L, c)
  {
    hide RowIn; hide FrameIn; hide FrameRowIn; hide PairOk;
    forall b: nat | b < |L.bands|
      ensures BandOk(L, ShapeOf(st), b)
    {
      assert BandOk(TablesOf(st), ShapeOf(st), b);
      assert RowResolved(st, L, |st.elements|, st.owner[b]);
    }
    forall c: nat | c < |L.callables|
      ensures CallableOk(L, c)
    {
      assert CallableOk(TablesOf(st), c);
      assert RowResolved(st, L, |st.elements|, st.callables[c].elementIndex);
    }
    forall c: nat | c < |L.callables|
      ensures FlagOk(L, c)
    {
      assert FlagUpTo(L, |st.elements|, c);
    }
  }

  /** Whatever text is accepted, its element table is well formed. */
  lemma CompiledWellFormed(text: string)
    requires CompileText(text).Some?
    ensures exists s :: WellFormed(CompileText(text).value, s)
  {
    hide Inv; hide ParseStep; hide WellFormed; hide ResolveCalls; hide START; hide Resolved;
    StartInv();
    ParseKeeps(text, START);
    var st := ParseAll(text, START).value;
    ResolveKeeps(st, |st.elements|);
    ResolvedWellFormed(st, CompileText(text).value);
  }

  lemma {:induction false} ParseKeeps(text: string, st: ParseState)
    requires Inv(st) && Bounded(st) && st.position <= |text| <= MAX_LAYOUT_LENGTH && ParseAll(text, st).Some?
    ensures Inv(ParseAll(text, st).value) && Bounded(ParseAll(text, st).value)
    decreases |text| - st.position, |st.frames|
  {
    hide Inv; hide ParseStep; hide Bounded;
    if st.frames != [] {
      StepKeeps(text, st);
      ParseKeeps(text, ParseStep(text, st).value);
    }
  }

  lemma {:induction false} ResolveFails(L: Layout, k: nat, n: nat)
    requires k <= n <= |L.elements| && ResolveCalls(L, k).None?
    ensures ResolveCalls(L, n).None?
    decreases n
  {
    if k < n { ResolveFails(L, k, n - 1); }
  }
}
