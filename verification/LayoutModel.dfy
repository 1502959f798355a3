// The compiled form of a Pack200 attribute layout (JSR 200, section 5.5.2 of the network
// transfer format) and the declarative flow equations that both the band-by-band reader
// and the occurrence-by-occurrence writer must satisfy.
module LayoutModel {
  import opened Common

  datatype ElementKind =
    | Sequence | Callable | Integral | Reference | Replication | Union | UnionCase | Call

  datatype BciKind = NoBci | BciIndex | BciOffset | BciPreviousOffset

  datatype ReferenceKind =
    | NoReference | IntegerRef | LongRef | FloatRef | DoubleRef | StringRef | FieldSpecificRef
    | ClassRef | SignatureRef | DescriptorRef | FieldRef | MethodRef | InterfaceMethodRef
    | Utf8Ref | LoadableRef | MethodHandleRef | MethodTypeRef | AnyRef | AnyMemberRef
    | BootstrapMethodRef | InvokeDynamicRef

  datatype CodingKind =
    | Byte1 | Char3 | Unsigned5 | Signed5 | Delta5 | UnsignedDelta5 | MDelta5 | Bci5 | Branch5

  /** One row of the element table; the tree is threaded through firstChild and nextSibling. */
  datatype Element = Element(
    kind: ElementKind,
    bciKind: BciKind := NoBci,
    reference: ReferenceKind := NoReference,
    firstChild: nat := NO_INDEX,
    nextSibling: nat := NO_INDEX,
    bandIndex: nat := NO_INDEX,
    selectorOffset: nat := 0,
    selectorCount: nat := 0,
    callOffset: int := 0,
    targetCallable: nat := NO_INDEX,
    callableIndex: nat := NO_INDEX,
    outputSize: nat := 0,
    signed: bool := false,
    nullable: bool := false,
    backwardCall: bool := false)

  datatype Band = Band(coding: CodingKind, reference: ReferenceKind, outputSize: nat, nullable: bool)
  datatype CallableEntry = CallableEntry(elementIndex: nat, hasBackwardCall: bool)
  datatype SelectorRange = SelectorRange(first: int, last: int)

  datatype Layout = Layout(
    elements: seq<Element>,
    bands: seq<Band>,
    callables: seq<CallableEntry>,
    selectors: seq<SelectorRange>,
    backwardCallables: nat)

  predicate HasBand(e: Element) {
    e.kind == Integral || e.kind == Reference || e.kind == Replication || e.kind == Union
  }

  predicate Within(index: nat, limit: nat) {
    index == NO_INDEX || index < limit
  }

  /** The tree structure behind the links: each element's parent and each band's element. */
  datatype Shape = Shape(parent: seq<nat>, owner: seq<nat>)

  /** Every index stored in row i is in range, and its sibling link runs forward. */
  predicate RowIndexed(L: Layout, i: nat)
    requires i < |L.elements|
  {
    var e := L.elements[i];
    && Within(e.firstChild, |L.elements|)
    && Within(e.nextSibling, |L.elements|)
    && (e.firstChild != NO_INDEX ==> i < e.firstChild)
    && (e.nextSibling != NO_INDEX ==> i < e.nextSibling)
    && (HasBand(e) <==> e.bandIndex != NO_INDEX)
    && (HasBand(e) ==> e.bandIndex < |L.bands|)
    && (e.kind == Call ==> e.targetCallable < |L.callables|)
    && (e.kind == Callable ==> e.callableIndex < |L.callables|)
    && e.selectorOffset + e.selectorCount <= |L.selectors|
  }

  ghost predicate Indexed(L: Layout) {
    && 0 < |L.elements| < NO_INDEX
    && |L.bands| < NO_INDEX
    && (forall i: nat :: i < |L.elements| ==> RowIndexed(L, i))
    && (forall c: nat :: c < |L.callables| ==> L.callables[c].elementIndex < |L.elements|)
  }

  predicate NestOk(parent: ElementKind, child: ElementKind) {
    match child
    case Sequence => false
    case Callable => parent == Sequence
    case UnionCase => parent == Union
    case _ => parent == Sequence || parent == Callable || parent == Replication || parent == UnionCase
  }

  /** Row i hangs correctly in the tree; its links, band and callable point back at it. */
  predicate RowOk(L: Layout, s: Shape, i: nat)
    requires |s.parent| == |L.elements| && |s.owner| == |L.bands| && i < |L.elements|
  {
    var e := L.elements[i];
    && RowIndexed(L, i)
    && e.outputSize <= 4
    && (i == 0 <==> e.kind == Sequence)
    && (i == 0 ==> e.nextSibling == NO_INDEX)
    && (i > 0 ==> s.parent[i] < i && NestOk(L.elements[s.parent[i]].kind, e.kind))
    && (e.firstChild != NO_INDEX ==> s.parent[e.firstChild] == i)
    && (e.nextSibling != NO_INDEX ==> s.parent[e.nextSibling] == s.parent[i])
    && (HasBand(e) ==> s.owner[e.bandIndex] == i)
    && (e.kind == Callable ==> L.callables[e.callableIndex].elementIndex == i)
    // a forward call goes to a later row
    && (e.kind == Call && !e.backwardCall ==> i < L.callables[e.targetCallable].elementIndex)
    // every union has cases, and exactly the last one is the default
    && (e.kind == Union ==> e.firstChild != NO_INDEX)
    && (e.kind == UnionCase ==> (e.selectorCount == 0 <==> e.nextSibling == NO_INDEX))
  }

  /** Some selector range of case row c contains v. */
  ghost predicate Contains(L: Layout, c: nat, v: int)
    requires c < |L.elements|
  {
    var off := L.elements[c].selectorOffset;
    exists k :: off <= k < off + L.elements[c].selectorCount && k < |L.selectors| && L.selectors[k].first <= v <= L.selectors[k].last
  }

  /**
   * Rows i and k with i before k: the numbering is a preorder, the links of i skip no child and
   * no sibling, and cases of one union are disjoint.
   */
  ghost predicate PairOk(L: Layout, s: Shape, i: nat, k: nat)
    requires |s.parent| == |L.elements| && i < k < |L.elements|
  {
    && (s.parent[k] < i ==> s.parent[k] <= s.parent[i])
    && (s.parent[k] == i ==> L.elements[i].firstChild <= k)
    && (i > 0 && s.parent[k] == s.parent[i] ==> L.elements[i].nextSibling <= k)
    && (i > 0 && s.parent[k] == s.parent[i] && L.elements[i].kind == UnionCase ==>
          forall v: int :: Contains(L, i, v) ==> !Contains(L, k, v))
  }

  predicate BandOk(L: Layout, s: Shape, b: nat)
    requires |s.owner| == |L.bands| && b < |L.bands|
  {
    && s.owner[b] < |L.elements|
    && HasBand(L.elements[s.owner[b]])
    && L.elements[s.owner[b]].bandIndex == b
  }

  predicate CallableOk(L: Layout, c: nat)
    requires c < |L.callables|
  {
    var i := L.callables[c].elementIndex;
    i < |L.elements| && L.elements[i].kind == Callable && L.elements[i].callableIndex == c
  }

  /** Row i is a backward call into callable c. */
  predicate BackwardTo(L: Layout, i: nat, c: nat)
    requires i < |L.elements|
  {
    L.elements[i].kind == Call && L.elements[i].backwardCall && L.elements[i].targetCallable == c
  }

  /** The flag of callable c says whether a backward call enters it. */
  ghost predicate FlagOk(L: Layout, c: nat)
    requires c < |L.callables|
  {
    L.callables[c].hasBackwardCall <==> exists i: nat :: i < |L.elements| && BackwardTo(L, i, c)
  }

  function CountFlags(callables: seq<CallableEntry>, n: nat): nat
    requires n <= |callables|
  {
    if n == 0 then 0 else CountFlags(callables, n - 1) + if callables[n - 1].hasBackwardCall then 1 else 0
  }

  /** What Compile guarantees of every layout it accepts. */
  ghost predicate WellFormed(L: Layout, s: Shape) {
    && Indexed(L)
    && |s.parent| == |L.elements| && |s.owner| == |L.bands|
    && (forall i: nat :: i < |L.elements| ==> RowOk(L, s, i))
    && (forall i: nat, k: nat :: i < k < |L.elements| ==> PairOk(L, s, i, k))
    && (forall b: nat :: b < |L.bands| ==> BandOk(L, s, b))
    && (forall a: nat, b: nat :: a < b < |L.bands| ==> s.owner[a] < s.owner[b])
    && (forall c: nat :: c < |L.callables| ==> CallableOk(L, c))
    && (forall c: nat :: c < |L.callables| ==> FlagOk(L, c))
    && L.backwardCallables == CountFlags(L.callables, |L.callables|)
    && (forall c: nat, d: nat :: c < d < |L.callables| ==>
          L.callables[c].elementIndex < L.callables[d].elementIndex)
  }

  ghost predicate NoBackwardCall(L: Layout) {
    forall i: nat :: i < |L.elements| && L.elements[i].kind == Call ==> !L.elements[i].backwardCall
  }

  //
  // The flow equations
  //

  /** Case row c is the one that a union value v selects. */
  ghost predicate Picks(L: Layout, s: Shape, c: nat, v: int)
    requires Indexed(L) && |s.parent| == |L.elements| && c < |L.elements|
  {
    if L.elements[c].selectorCount > 0 then Contains(L, c, v)
    else forall d: nat :: 1 <= d < |L.elements| && s.parent[d] == s.parent[c] && d != c ==> !Contains(L, d, v)
  }

  ghost function CountPicks(L: Layout, s: Shape, c: nat, vs: seq<int>): nat
    requires Indexed(L) && |s.parent| == |L.elements| && c < |L.elements|
  {
    if |vs| == 0 then 0
    else CountPicks(L, s, c, vs[..|vs| - 1]) + if Picks(L, s, c, vs[|vs| - 1]) then 1 else 0
  }

  /** How often the calls among the first n rows that target callable c were made. */
  function CallSum(L: Layout, visits: seq<nat>, c: nat, n: nat): nat
    requires |visits| == |L.elements| && n <= |L.elements|
  {
    if n == 0 then 0 else
    CallSum(L, visits, c, n - 1) +
      if L.elements[n - 1].kind == Call && L.elements[n - 1].targetCallable == c then visits[n - 1] else 0
  }

  /**
   * The number of visits row e, no callable, must receive when `occurrences` occurrences have been
   * started, the other rows were visited as `visits` says, and band b gave out `taken[b]`.
   */
  ghost function BodyFlow(L: Layout, s: Shape, occurrences: nat, taken: seq<seq<int>>, visits: seq<nat>, e: nat): int
    requires WellFormed(L, s) && 1 <= e < |L.elements|
    requires |visits| == |L.elements| && |taken| == |L.bands|
  {
    assert RowOk(L, s, e);
    var p := s.parent[e];
    assert RowIndexed(L, p);
    match L.elements[p].kind
    case Sequence => if |L.callables| == 0 then occurrences else 0
    case Replication => Sum(taken[L.elements[p].bandIndex])
    case Union => CountPicks(L, s, e, taken[L.elements[p].bandIndex])
    case _ => visits[p]
  }

  /** The visits row e must receive; a callable is entered by its callers, the first one by each occurrence. */
  ghost function Flow(L: Layout, s: Shape, occurrences: nat, taken: seq<seq<int>>, visits: seq<nat>, e: nat): int
    requires WellFormed(L, s) && 1 <= e < |L.elements|
    requires |visits| == |L.elements| && |taken| == |L.bands|
  {
    if L.elements[e].kind == Callable then
      (if L.elements[e].callableIndex == 0 then occurrences else 0)
      + CallSum(L, visits, L.elements[e].callableIndex, |L.elements|)
    else BodyFlow(L, s, occurrences, taken, visits, e)
  }

  /** Band b holds one value per visit of its element, none of them a negative repeat count. */
  ghost predicate BandBalanced(L: Layout, s: Shape, values: seq<seq<int>>, visits: seq<nat>, b: nat)
    requires |visits| == |L.elements| && |values| == |L.bands| == |s.owner| && b < |L.bands|
  {
    && s.owner[b] < |L.elements|
    && |values[b]| == visits[s.owner[b]]
    && (L.elements[s.owner[b]].kind == Replication ==> forall k :: 0 <= k < |values[b]| ==> values[b][k] >= 0)
  }

  ghost predicate RowBalanced(L: Layout, s: Shape, occurrences: nat, values: seq<seq<int>>, visits: seq<nat>, e: nat)
    requires WellFormed(L, s) && 1 <= e < |L.elements|
    requires |visits| == |L.elements| && |values| == |L.bands|
  {
    visits[e] == Flow(L, s, occurrences, values, visits, e)
  }

  /**
   * The columns are balanced: `visits` solves the flow equations for the values the bands hold,
   * and each band holds exactly one value per visit of its element.
   */
  ghost predicate Balanced(L: Layout, s: Shape, occurrences: nat, values: seq<seq<int>>, visits: seq<nat>)
    requires WellFormed(L, s)
  {
    && |visits| == |L.elements| && |values| == |L.bands|
    && (forall b: nat :: b < |L.bands| ==> BandBalanced(L, s, values, visits, b))
    && (forall e: nat :: 1 <= e < |L.elements| ==> RowBalanced(L, s, occurrences, values, visits, e))
  }

  //
  // Monotonicity and uniqueness of the flow
  //

  lemma {:induction false} CallSumMonotone(L: Layout, a: seq<nat>, b: seq<nat>, c: nat, n: nat)
    requires |a| == |b| == |L.elements| && n <= |L.elements|
    requires forall i :: 0 <= i < n && L.elements[i].kind == Call && L.elements[i].targetCallable == c ==> a[i] <= b[i]
    ensures CallSum(L, a, c, n) <= CallSum(L, b, c, n)
  {
    if n > 0 { CallSumMonotone(L, a, b, c, n - 1); }
  }

  lemma {:induction false} SumPrefix(vs: seq<int>, n: nat)
    requires n <= |vs| && forall k :: 0 <= k < |vs| ==> vs[k] >= 0
    ensures 0 <= Sum(vs[..n]) <= Sum(vs)
  {
    if n < |vs| {
      SumPrefix(vs[..|vs| - 1], n);
      assert vs[..|vs| - 1][..n] == vs[..n];
    } else {
      assert vs[..n] == vs;
      if n > 0 {
        SumPrefix(vs[..n - 1], n - 1);
        assert vs[..n - 1][..n - 1] == vs[..n - 1];
      }
    }
  }

  lemma {:induction false} PicksPrefix(L: Layout, s: Shape, c: nat, vs: seq<int>, n: nat)
    requires Indexed(L) && |s.parent| == |L.elements| && c < |L.elements|
    requires n <= |vs|
    ensures CountPicks(L, s, c, vs[..n]) <= CountPicks(L, s, c, vs)
  {
    if n < |vs| {
      PicksPrefix(L, s, c, vs[..|vs| - 1], n);
      assert vs[..|vs| - 1][..n] == vs[..n];
    } else {
      assert vs[..n] == vs;
    }
  }

  /** The first n values of a band. */
  function Prefix(vs: seq<int>, n: nat): seq<int> {
    if n <= |vs| then vs[..n] else vs
  }

  /** Values given out so far. */
  function Taken(values: seq<seq<int>>, cursor: seq<nat>): (t: seq<seq<int>>)
    requires |values| == |cursor|
    ensures |t| == |values|
  {
    seq(|values|, b requires 0 <= b < |values| => Prefix(values[b], cursor[b]))
  }

  /** What flows into row e depends only on rows before e, and grows with them. */
  lemma FlowMonotone(L: Layout, s: Shape, occ: nat, occurrences: nat, values: seq<seq<int>>, cursor: seq<nat>,
                     visits: seq<nat>, full: seq<nat>, e: nat)
    requires WellFormed(L, s) && NoBackwardCall(L) && Balanced(L, s, occurrences, values, full)
    requires |cursor| == |values|
    requires |visits| == |L.elements| && 1 <= e < |L.elements| && occ <= occurrences
    requires forall i :: 1 <= i < e ==> visits[i] <= full[i]
    ensures Flow(L, s, occ, Taken(values, cursor), visits, e) <= full[e]
  {
    var p := s.parent[e];
    assert RowBalanced(L, s, occurrences, values, full, e);
    assert RowOk(L, s, e) && RowOk(L, s, p);
    if L.elements[e].kind == Callable {
      var c := L.elements[e].callableIndex;
      forall i: nat | i < |L.elements| && L.elements[i].kind == Call && L.elements[i].targetCallable == c
        ensures visits[i] <= full[i]
      {
        assert RowOk(L, s, i);
      }
      CallSumMonotone(L, visits, full, c, |L.elements|);
    } else if L.elements[p].kind == Replication {
      var b := L.elements[p].bandIndex;
      assert BandBalanced(L, s, values, full, b);
      SumPrefix(values[b], if cursor[b] <= |values[b]| then cursor[b] else |values[b]|);
      assert values[b][..|values[b]|] == values[b];
    } else if L.elements[p].kind == Union {
      var b := L.elements[p].bandIndex;
      PicksPrefix(L, s, e, values[b], if cursor[b] <= |values[b]| then cursor[b] else |values[b]|);
      assert values[b][..|values[b]|] == values[b];
    }
  }
}
