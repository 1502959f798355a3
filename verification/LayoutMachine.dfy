// Row-wise execution of a compiled layout: the explicit-stack machine that turns the values of
// all bands into the payload bytes and relocations of one attribute occurrence after another.
module LayoutMachine {
  import opened Common
  import opened LayoutModel

  const MAX_FRAMES: nat := 4096
  const MAX_STEPS: nat := 16 * 1024 * 1024

  datatype Frame = Frame(next: nat, repeatStart: nat, remaining: nat)

  datatype Relocation = Relocation(
    offset: nat, value: int, reference: ReferenceKind, bciKind: BciKind,
    size: nat, nullable: bool, signed: bool)

  /**
   * One occurrence in progress. `visits` counts how often each row was entered; it is what the
   * theorems speak about and influences nothing.
   */
  datatype Machine = Machine(
    frames: seq<Frame>, cursor: seq<nat>, visits: seq<nat>, bytes: seq<byte>, relocations: seq<Relocation>)

  /** Stuck: a band is empty, a repeat count negative or no case matches. Capped: a limit was hit. */
  datatype StepResult = Running(m: Machine) | Stuck | Capped

  predicate FrameOk(L: Layout, f: Frame) {
    f.remaining >= 1 && f.repeatStart < |L.elements| && Within(f.next, |L.elements|)
  }

  ghost predicate MachineOk(L: Layout, m: Machine) {
    && |m.cursor| == |L.bands|
    && |m.visits| == |L.elements|
    && forall k :: 0 <= k < |m.frames| ==> FrameOk(L, m.frames[k])
  }

  /** The case row among c and its later siblings that value v selects, `dflt` when none matches. */
  ghost function Select(L: Layout, c: nat, dflt: nat, v: int): (r: nat)
    requires Indexed(L) && Within(c, |L.elements|) && Within(dflt, |L.elements|)
    ensures Within(r, |L.elements|)
    decreases if c == NO_INDEX then 0 else |L.elements| - c
  {
    if c == NO_INDEX then dflt else
    assert RowIndexed(L, c);
    if L.elements[c].selectorCount == 0 then Select(L, L.elements[c].nextSibling, c, v)
    else if Contains(L, c, v) then c
    else Select(L, L.elements[c].nextSibling, dflt, v)
  }

  ghost function Bump(counts: seq<nat>, i: nat): (r: seq<nat>)
    requires i < |counts|
  {
    counts[i := counts[i] + 1]
  }

  /** What row e writes for value v. */
  ghost function Write(el: Element, v: int, m: Machine): Machine {
    if el.kind == Reference || (HasBand(el) && el.bciKind != NoBci) then
      m.(bytes := m.bytes + Zeros(el.outputSize),
         relocations := m.relocations + [RelocationOf(el, v, |m.bytes|)])
    else if HasBand(el) then
      m.(bytes := m.bytes + BigEndian(v, el.outputSize))
    else m
  }

  function RelocationOf(el: Element, v: int, offset: nat): Relocation {
    if el.kind == Reference then
      Relocation(offset, v, el.reference, NoBci, el.outputSize, el.nullable, false)
    else
      Relocation(offset, v, NoReference, el.bciKind, el.outputSize, false, el.signed)
  }

  /** Enter the children that start at row `body`, `times` times over. */
  function Push(m: Machine, body: nat, times: nat): Machine {
    if body == NO_INDEX || times == 0 then m
    else m.(frames := m.frames + [Frame(body, body, times)])
  }

  /** One turn of the machine. */
  ghost function Step(L: Layout, values: seq<seq<int>>, m: Machine): (r: StepResult)
    requires Indexed(L) && MachineOk(L, m) && m.frames != [] && |values| == |L.bands|
    ensures r.Running? ==> MachineOk(L, r.m)
  {
    var below := m.frames[..|m.frames| - 1];
    var top := m.frames[|m.frames| - 1];
    assert FrameOk(L, top);
    if top.next == NO_INDEX then
      if top.remaining > 1 then
        Running(m.(frames := below + [Frame(top.repeatStart, top.repeatStart, top.remaining - 1)]))
      else Running(m.(frames := below))
    else
      var e := top.next;
      assert RowIndexed(L, e);
      var el := L.elements[e];
      var moved := m.(frames := below + [top.(next := el.nextSibling)], visits := Bump(m.visits, e));
      if HasBand(el) && m.cursor[el.bandIndex] >= |values[el.bandIndex]| then Stuck
      else if HasBand(el) then
        var v := values[el.bandIndex][m.cursor[el.bandIndex]];
        Enter(L, e, v, Write(el, v, moved.(cursor := Bump(m.cursor, el.bandIndex))))
      else Enter(L, e, 0, moved)
  }

  /** Descend below row e after it consumed v. */
  ghost function Enter(L: Layout, e: nat, v: int, m: Machine): (r: StepResult)
    requires Indexed(L) && MachineOk(L, m) && e < |L.elements|
    ensures r.Running? ==> MachineOk(L, r.m)
  {
    assert RowIndexed(L, e);
    var el := L.elements[e];
    match el.kind
    case Replication =>
      if v < 0 then Stuck
      else if v != 0 && el.firstChild != NO_INDEX && |m.frames| >= MAX_FRAMES then Capped
      else Running(Push(m, el.firstChild, v))
    case Union =>
      var c := Select(L, el.firstChild, NO_INDEX, v);
      if c == NO_INDEX then Stuck
      else
        assert RowIndexed(L, c);
        if L.elements[c].firstChild != NO_INDEX && |m.frames| >= MAX_FRAMES then Capped
        else Running(Push(m.(visits := Bump(m.visits, c)), L.elements[c].firstChild, 1))
    case Call =>
      var c := L.callables[el.targetCallable].elementIndex;
      assert RowIndexed(L, c);
      if |m.frames| >= MAX_FRAMES then Capped
      else Running(Push(m.(visits := Bump(m.visits, c)), L.elements[c].firstChild, 1))
    case _ => Running(m)
  }

  datatype Outcome = Done(m: Machine) | Failed | LimitHit

  /** Run until the stack is empty, for at most `fuel` turns. */
  ghost function Run(L: Layout, values: seq<seq<int>>, m: Machine, fuel: nat): (r: Outcome)
    requires Indexed(L) && MachineOk(L, m) && |values| == |L.bands|
    ensures r.Done? ==> MachineOk(L, r.m) && r.m.frames == []
    decreases fuel
  {
    if m.frames == [] then Done(m)
    else if fuel == 0 then LimitHit
    else match Step(L, values, m)
      case Running(m') => Run(L, values, m', fuel - 1)
      case Stuck => Failed
      case Capped => LimitHit
  }

  /** The row whose children make up an occurrence: the first callable, or the whole layout. */
  function EntryRow(L: Layout): nat {
    if |L.callables| != 0 then L.callables[0].elementIndex else 0
  }

  /** The machine at the start of an occurrence that follows one that ended in m. */
  ghost function Start(L: Layout, m: Machine): (r: Machine)
    requires Indexed(L) && MachineOk(L, m)
    ensures MachineOk(L, r)
  {
    var entry := EntryRow(L);
    assert RowIndexed(L, entry);
    var m0 := Machine([], m.cursor, if |L.callables| != 0 then Bump(m.visits, entry) else m.visits, [], []);
    Push(m0, L.elements[entry].firstChild, 1)
  }

  ghost function Fresh(L: Layout): Machine {
    Machine([], seq(|L.bands|, _ => 0), seq(|L.elements|, _ => 0), [], [])
  }

  /** The state after `n` occurrences, each run from where the previous one left the cursors. */
  ghost function Occurrences(L: Layout, values: seq<seq<int>>, n: nat, limit: nat): (r: Outcome)
    requires Indexed(L) && |values| == |L.bands|
    ensures r.Done? ==> MachineOk(L, r.m) && r.m.frames == []
  {
    if n == 0 then Done(Fresh(L))
    else match Occurrences(L, values, n - 1, limit)
      case Done(m) => Run(L, values, Start(L, m), limit)
      case other => other
  }

  //
  // Flow conservation: pending visits
  //

  /** How often frame f will still visit row e. */
  function Pending1(s: Shape, f: Frame, e: nat): nat
    requires e < |s.parent|
  {
    if f.repeatStart < |s.parent| && s.parent[e] == s.parent[f.repeatStart] && f.remaining >= 1 then
      f.remaining - 1 + if f.next <= e then 1 else 0
    else 0
  }

  /** How often the frames on the stack will still visit row e. */
  function Pending(s: Shape, frames: seq<Frame>, e: nat): nat
    requires e < |s.parent|
  {
    if |frames| == 0 then 0
    else Pending(s, frames[..|frames| - 1], e) + Pending1(s, frames[|frames| - 1], e)
  }

  /** Rows whose children are executed in sequence. */
  predicate Iterable(L: Layout, p: nat)
    requires p < |L.elements|
  {
    var k := L.elements[p].kind;
    k == Callable || k == Replication || k == UnionCase || (k == Sequence && |L.callables| == 0)
  }

  /** A frame iterates over the children of one row: it starts at the first and stands at one of them. */
  predicate FrameWell(L: Layout, s: Shape, f: Frame)
    requires |s.parent| == |L.elements|
  {
    && FrameOk(L, f)
    && 1 <= f.repeatStart
    && s.parent[f.repeatStart] < |L.elements|
    && Iterable(L, s.parent[f.repeatStart])
    && L.elements[s.parent[f.repeatStart]].firstChild == f.repeatStart
    && (f.next != NO_INDEX ==> f.repeatStart <= f.next && s.parent[f.next] == s.parent[f.repeatStart])
  }

  /** The cursor of band b is in range and equals the visits of its element. */
  predicate CursorOk(L: Layout, s: Shape, values: seq<seq<int>>, m: Machine, b: nat)
    requires |values| == |m.cursor| == |L.bands| == |s.owner| && b < |L.bands|
  {
    && m.cursor[b] <= |values[b]|
    && s.owner[b] < |m.visits|
    && m.cursor[b] == m.visits[s.owner[b]]
  }

  /** Visits made plus visits pending equal the flow into row e. */
  ghost predicate RowConserved(L: Layout, s: Shape, values: seq<seq<int>>, occ: nat, m: Machine, e: nat)
    requires WellFormed(L, s) && MachineOk(L, m) && |values| == |L.bands| && 1 <= e < |L.elements|
  {
    m.visits[e] + Pending(s, m.frames, e) == Flow(L, s, occ, Taken(values, m.cursor), m.visits, e)
  }

  ghost predicate Conserved(L: Layout, s: Shape, values: seq<seq<int>>, occ: nat, m: Machine)
    requires WellFormed(L, s) && |values| == |L.bands|
  {
    && MachineOk(L, m)
    && (forall b: nat :: b < |L.bands| ==> CursorOk(L, s, values, m, b))
    && (forall k :: 0 <= k < |m.frames| ==> FrameWell(L, s, m.frames[k]))
    && (forall e: nat :: 1 <= e < |L.elements| ==> RowConserved(L, s, values, occ, m, e))
  }

  lemma PendingPush(s: Shape, frames: seq<Frame>, f: Frame, e: nat)
    requires e < |s.parent|
    ensures Pending(s, frames + [f], e) == Pending(s, frames, e) + Pending1(s, f, e)
  {
    assert (frames + [f])[..|frames|] == frames;
  }

  lemma PendingTop(s: Shape, frames: seq<Frame>, f: Frame, e: nat)
    requires e < |s.parent| && |frames| > 0
    ensures Pending(s, frames[..|frames| - 1] + [f], e)
         == Pending(s, frames, e) - Pending1(s, frames[|frames| - 1], e) + Pending1(s, f, e)
  {
    PendingPush(s, frames[..|frames| - 1], f, e);
  }

  /** Starting a frame over the children of row p owes each of them `times` visits and no one else any. */
  lemma PendingFresh(L: Layout, s: Shape, p: nat, times: nat, e: nat)
    requires WellFormed(L, s) && p < |L.elements| && 1 <= e < |L.elements| && times >= 1
    requires L.elements[p].firstChild != NO_INDEX && Iterable(L, p)
    ensures Pending1(s, Frame(L.elements[p].firstChild, L.elements[p].firstChild, times), e)
         == if s.parent[e] == p then times else 0
    ensures FrameWell(L, s, Frame(L.elements[p].firstChild, L.elements[p].firstChild, times))
  {
    assert RowOk(L, s, p);
    if s.parent[e] == p {
      assert RowOk(L, s, e);
      assert PairOk(L, s, p, e);
    }
  }

  /** A row without children is nobody's parent. */
  lemma Childless(L: Layout, s: Shape, p: nat, e: nat)
    requires WellFormed(L, s) && p < |L.elements| && 1 <= e < |L.elements|
    requires L.elements[p].firstChild == NO_INDEX
    ensures s.parent[e] != p
  {
    assert RowOk(L, s, e);
    if p < e {
      assert PairOk(L, s, p, e);
    }
  }

  /** Moving past row e leaves one visit fewer pending for e and nothing else. */
  lemma PendingAdvance(L: Layout, s: Shape, f: Frame, e: nat)
    requires WellFormed(L, s) && FrameWell(L, s, f) && f.next != NO_INDEX && 1 <= e < |L.elements|
    ensures Pending1(s, f.(next := L.elements[f.next].nextSibling), e)
         == Pending1(s, f, e) - if e == f.next then 1 else 0
    ensures FrameWell(L, s, f.(next := L.elements[f.next].nextSibling))
  {
    assert RowOk(L, s, f.next) && RowOk(L, s, e);
    if f.next < e && s.parent[e] == s.parent[f.next] {
      assert PairOk(L, s, f.next, e);
    }
  }

  /** Restarting a frame turns one outstanding repetition into pending visits. */
  lemma PendingRepeat(L: Layout, s: Shape, f: Frame, e: nat)
    requires WellFormed(L, s) && FrameWell(L, s, f) && f.next == NO_INDEX && f.remaining > 1 && 1 <= e < |L.elements|
    ensures Pending1(s, Frame(f.repeatStart, f.repeatStart, f.remaining - 1), e) == Pending1(s, f, e)
  {
    assert RowOk(L, s, e);
    var p := s.parent[f.repeatStart];
    if s.parent[e] == p {
      assert RowOk(L, s, f.repeatStart);
      assert PairOk(L, s, p, e);
    }
  }
}
