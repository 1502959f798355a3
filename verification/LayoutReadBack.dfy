// What an occurrence writes, read back: the values taken from the bands, in the order of the tree.
module LayoutReadBack {
  import opened Common
  import opened Arithmetic
  import opened Octets
  import opened LayoutModel
  import opened LayoutMachine
  import opened LayoutPayload
  import opened LayoutBands
  import opened LayoutReader

  /** A value taken from the band of a row. */
  datatype Drawn = Drawn(row: nat, value: int)

  /** The value the next turn of m takes, if it takes one. */
  function NextDrawn(L: Layout, values: seq<seq<int>>, m: Machine): (t: seq<Drawn>)
    requires |values| == |m.cursor| == |L.bands| && m.frames != []
    ensures InTable(L, t)
  {
    var e := m.frames[|m.frames| - 1].next;
    if e < |L.elements| && HasBand(L.elements[e]) && L.elements[e].bandIndex < |L.bands| &&
       m.cursor[L.elements[e].bandIndex] < |values[L.elements[e].bandIndex]|
    then [Drawn(e, values[L.elements[e].bandIndex][m.cursor[L.elements[e].bandIndex]])]
    else []
  }

  predicate InTable(L: Layout, t: seq<Drawn>) {
    forall k :: 0 <= k < |t| ==> t[k].row < |L.elements|
  }

  /** The values a run takes from the bands, in order. */
  ghost function Trace(L: Layout, values: seq<seq<int>>, m: Machine, fuel: nat): (t: seq<Drawn>)
    requires Indexed(L) && MachineOk(L, m) && |values| == |L.bands|
    ensures InTable(L, t)
    decreases fuel
  {
    if m.frames == [] || fuel == 0 then []
    else match Step(L, values, m)
      case Running(m') => NextDrawn(L, values, m) + Trace(L, values, m', fuel - 1)
      case _ => []
  }

  /** What a field of n bytes keeps of v: the number congruent to v modulo 256 to the n that it can hold. */
  function Kept(v: int, n: nat, signed: bool): int {
    var u := v % Pow2(8 * n);
    if signed && 2 * u >= Pow2(8 * n) then u - Pow2(8 * n) else u
  }

  /** A field of n bytes can hold v. */
  predicate CanHold(v: int, n: nat, signed: bool) {
    if signed then -(Pow2(8 * n) as int) <= 2 * v < Pow2(8 * n) else 0 <= v < Pow2(8 * n)
  }

  /** The item that stands for value v of row e, in a field as far as the field holds it. */
  function ItemOf(L: Layout, d: Drawn): Item
    requires d.row < |L.elements|
  {
    var el := L.elements[d.row];
    if el.kind == Reference then Index(d.row, d.value, el.reference, NoBci, el.nullable, false)
    else if el.bciKind != NoBci then Index(d.row, d.value, NoReference, el.bciKind, false, el.signed)
    else Field(d.row, Kept(d.value, el.outputSize, el.signed))
  }

  function Items(L: Layout, t: seq<Drawn>): (r: seq<Item>)
    requires InTable(L, t)
  {
    seq(|t|, k requires 0 <= k < |t| => ItemOf(L, t[k]))
  }

  function Rows(t: seq<Drawn>): (r: seq<nat>) {
    seq(|t|, k requires 0 <= k < |t| => t[k].row)
  }

  /** The place of d, when it has a field of its own, can hold it. */
  predicate Fits(L: Layout, d: Drawn)
    requires d.row < |L.elements|
  {
    LeftOpen(L.elements[d.row]) || CanHold(d.value, L.elements[d.row].outputSize, L.elements[d.row].signed)
  }

  /** Rows whose value decides what follows. */
  predicate Steers(el: Element) {
    el.kind == Replication || el.kind == Union
  }

  /** Every count and tag fits its field. */
  ghost predicate SteersFit(L: Layout, t: seq<Drawn>)
    requires InTable(L, t)
  {
    forall k :: 0 <= k < |t| && Steers(L.elements[t[k].row]) ==> Fits(L, t[k])
  }

  /** Every value fits its field. */
  ghost predicate AllFit(L: Layout, t: seq<Drawn>)
    requires InTable(L, t)
  {
    forall k :: 0 <= k < |t| ==> Fits(L, t[k])
  }

  //
  // One field
  //

  lemma KeptIs(v: int, n: nat, signed: bool)
    ensures Kept(v, n, signed) == v <==> CanHold(v, n, signed)
    ensures CanHold(Kept(v, n, signed), n, signed)
  {
    hide Pow2;
    var p: int := Pow2(8 * n);
    if 0 <= v < p {
      SmallMod(v, p);
    } else if -p <= v < 0 {
      ModBelowZero(v, p);
    }
  }

  lemma ModBelowZero(v: int, p: nat)
    requires -(p as int) <= v < 0
    ensures v % p == v + p
  {
    var q, u := v / p, v % p;
    assert v == p * q + u;
    if q <= -2 {
      TwiceBelow(q, p);
    } else if q >= 0 {
      MulMono(0, q, p);
    }
    assert q == -1;
  }

  lemma TwiceBelow(q: int, p: nat)
    requires q <= -2
    ensures p * q <= -2 * p
  {
    MulMono(2, -q, p);
    assert p * q == -(-q * p);
  }

  lemma FieldHolds(v: int, n: nat, signed: bool)
    requires n <= 4
    ensures FieldValue(BigEndian(v, n), signed) == Kept(v, n, signed)
  {
    hide Pow2; hide BigEndian;
    IntegerValue(v, n);
  }

  /** The payload starts with what machine m has written. */
  ghost predicate Begins(p: Payload, m: Machine) {
    && m.bytes <= p.bytes && |m.relocations| <= |p.relocations|
    && forall k :: 0 <= k < |m.relocations| ==> Moved(m.relocations[k], p.relocations[k], p.base)
  }

  predicate Moved(x: Relocation, y: Relocation, base: nat) {
    y == x.(offset := base + x.offset)
  }

  /** The reader stands where machine m stands. */
  predicate At(r: Reading, m: Machine) {
    r.at == |m.bytes| && r.resolved == |m.relocations|
  }

  lemma ItemIsRead(L: Layout, s: Shape, e: nat, v: int, m: Machine, p: Payload, r: Reading)
    requires WellFormed(L, s) && e < |L.elements| && HasBand(L.elements[e])
    requires Begins(p, Write(L.elements[e], v, m)) && At(r, m)
    ensures var n := Write(L.elements[e], v, m);
      ReadItem(e, L.elements[e], p, r) == Some(Reading(r.items + [ItemOf(L, Drawn(e, v))], |n.bytes|, |n.relocations|))
  {
    hide FieldValue; hide Kept; hide BigEndian; hide Zeros; hide PairOk;
    assert RowOk(L, s, e);
    var el := L.elements[e];
    var n := Write(el, v, m);
    if LeftOpen(el) {
      assert Moved(n.relocations[|m.relocations|], p.relocations[|m.relocations|], p.base);
    } else {
      assert n.bytes[|m.bytes|..] == BigEndian(v, el.outputSize);
      assert p.bytes[r.at..r.at + el.outputSize] == n.bytes[|m.bytes|..];
      FieldHolds(v, el.outputSize, el.signed);
    }
  }

  //
  // The case of a union
  //

  lemma CoversContains(L: Layout, c: nat, v: int)
    requires Indexed(L) && c < |L.elements|
    ensures Covers(L, c, v) <==> Contains(L, c, v)
  {
    var off := L.elements[c].selectorOffset;
    if Contains(L, c, v) {
      var k :| off <= k < off + L.elements[c].selectorCount && k < |L.selectors| && L.selectors[k].first <= v <= L.selectors[k].last;
      assert Lists(L, c, k - off, v);
    }
    if Covers(L, c, v) {
      var k: nat :| k < L.elements[c].selectorCount && Lists(L, c, k, v);
      assert L.selectors[off + k].first <= v;
    }
  }

  /** The walk that remembers the default finds the case the tag stands for. */
  lemma {:induction false} SelectIs(L: Layout, s: Shape, c: nat, v: int)
    requires WellFormed(L, s) && Within(c, |L.elements|)
    requires c != NO_INDEX ==> L.elements[c].kind == UnionCase
    ensures Select(L, c, NO_INDEX, v) == if Listed(L, c, v) != NO_INDEX then Listed(L, c, v) else Unlisted(L, c)
    decreases if c == NO_INDEX then 0 else |L.elements| - c
  {
    hide PairOk; hide Contains; hide Covers;
    if c != NO_INDEX {
      CoversContains(L, c, v);
      assert RowOk(L, s, c);
      var d := L.elements[c].nextSibling;
      if L.elements[c].selectorCount == 0 {
        ListsNothing(L, c, v);
        assert Select(L, NO_INDEX, c, v) == c;
      } else if d != NO_INDEX {
        assert RowOk(L, s, d);
        SelectIs(L, s, d, v);
      }
    }
  }

  lemma ListsNothing(L: Layout, c: nat, v: int)
    requires c < |L.elements| && L.elements[c].selectorCount == 0
    ensures !Covers(L, c, v)
  {
  }

  lemma ChosenIs(L: Layout, s: Shape, e: nat, v: int)
    requires WellFormed(L, s) && e < |L.elements| && L.elements[e].kind == Union
    ensures Within(L.elements[e].firstChild, |L.elements|)
    ensures Select(L, L.elements[e].firstChild, NO_INDEX, v) == Chosen(L, e, v)
  {
    hide PairOk; hide Select; hide Listed; hide Unlisted;
    assert RowOk(L, s, e);
    var c := L.elements[e].firstChild;
    assert RowOk(L, s, c);
    SelectIs(L, s, c, v);
  }

  //
  // What is left to read while frames are pending
  //

  predicate FramesOk(L: Layout, frames: seq<Frame>) {
    forall k :: 0 <= k < |frames| ==> FrameOk(L, frames[k])
  }

  ghost function ReadFrames(L: Layout, p: Payload, frames: seq<Frame>, r: Reading, depth: nat): Option<Reading>
    requires Indexed(L) && FramesOk(L, frames)
    decreases |frames|
  {
    if frames == [] then Some(r)
    else
      assert FrameOk(L, frames[|frames| - 1]);
      var top := frames[|frames| - 1];
      match ReadRows(L, p, top.next, r, depth)
      case None => None
      case Some(x) =>
        match ReadTimes(L, p, top.repeatStart, top.remaining - 1, x, depth)
        case None => None
        case Some(y) => ReadFrames(L, p, frames[..|frames| - 1], y, depth)
  }

  lemma {:induction false} FramesDeeper(L: Layout, p: Payload, frames: seq<Frame>, r: Reading, depth: nat)
    requires Indexed(L) && FramesOk(L, frames)
    requires ReadFrames(L, p, frames, r, depth).Some?
    ensures ReadFrames(L, p, frames, r, depth + 1) == ReadFrames(L, p, frames, r, depth)
    decreases |frames|
  {
    hide ReadRows; hide ReadTimes;
    if frames != [] {
      var top := frames[|frames| - 1];
      RowsDeeper(L, p, top.next, r, depth);
      var x := ReadRows(L, p, top.next, r, depth).value;
      TimesDeeper(L, p, top.repeatStart, top.remaining - 1, x, depth);
      FramesDeeper(L, p, frames[..|frames| - 1], ReadTimes(L, p, top.repeatStart, top.remaining - 1, x, depth).value, depth);
    }
  }

  /** Reading row e first and then the rest of its frame is reading the frame. */
  lemma RowFirst(L: Layout, p: Payload, below: seq<Frame>, top: Frame, r: Reading, y: Reading, x: Reading, depth: nat)
    requires Indexed(L) && FramesOk(L, below + [top]) && top.next < |L.elements|
    requires FramesOk(L, below + [top.(next := L.elements[top.next].nextSibling)])
    requires ReadRow(L, p, top.next, r, depth) == Some(y)
    requires ReadFrames(L, p, below + [top.(next := L.elements[top.next].nextSibling)], y, depth) == Some(x)
    ensures ReadFrames(L, p, below + [top], r, depth + 1) == Some(x)
  {
    hide ReadRow; hide ReadTimes;
    var moved := top.(next := L.elements[top.next].nextSibling);
    TopLast(below, top);
    TopLast(below, moved);
    var y1 := ReadRows(L, p, moved.next, y, depth).value;
    TimesDeeper(L, p, top.repeatStart, top.remaining - 1, y1, depth);
    FramesDeeper(L, p, below, ReadTimes(L, p, top.repeatStart, top.remaining - 1, y1, depth).value, depth);
  }

  lemma TopLast(below: seq<Frame>, top: Frame)
    ensures var f := below + [top]; |f| == |below| + 1 && f[|f| - 1] == top && f[..|f| - 1] == below
  {
  }

  /** A frame over the children of a row stands for its repetitions. */
  lemma Repeats(L: Layout, p: Payload, m: Machine, body: nat, times: nat, y: Reading, x: Reading, depth: nat) returns (z: Reading)
    requires Indexed(L) && FramesOk(L, m.frames) && Within(body, |L.elements|) && FramesOk(L, Push(m, body, times).frames)
    requires ReadFrames(L, p, Push(m, body, times).frames, y, depth) == Some(x)
    ensures ReadTimes(L, p, body, times, y, depth) == Some(z) && ReadFrames(L, p, m.frames, z, depth) == Some(x)
  {
    hide ReadRows;
    if body == NO_INDEX || times == 0 {
      z := y;
    } else {
      TopLast(m.frames, Frame(body, body, times));
      var y1 := ReadRows(L, p, body, y, depth).value;
      z := ReadTimes(L, p, body, times - 1, y1, depth).value;
    }
  }

  //
  // One turn
  //

  /** What m has written stays in front of everything the run writes. */
  lemma BeginsBefore(L: Layout, s: Shape, values: seq<seq<int>>, m: Machine, p: Payload)
    requires WellFormed(L, s) && MachineOk(L, m) && m.frames != [] && |values| == |L.bands|
    requires Step(L, values, m).Running? && Begins(p, Step(L, values, m).m)
    ensures Begins(p, m)
  {
    hide Step; hide Moved;
    StepAppends(L, s, values, m);
  }

  /** Machine m, whose top frame stands at a row, moved past that row. */
  ghost function Past(L: Layout, m: Machine): (r: Machine)
    requires Indexed(L) && MachineOk(L, m) && m.frames != [] && m.frames[|m.frames| - 1].next < |L.elements|
    ensures MachineOk(L, r)
  {
    var top := m.frames[|m.frames| - 1];
    assert FrameOk(L, top) && RowIndexed(L, top.next);
    m.(frames := m.frames[..|m.frames| - 1] + [top.(next := L.elements[top.next].nextSibling)], visits := Bump(m.visits, top.next))
  }

  /** What the turn of m at a row is: its value is taken and written, then the row is entered. */
  ghost predicate TurnIs(L: Layout, values: seq<seq<int>>, m: Machine)
    requires Indexed(L) && MachineOk(L, m) && m.frames != [] && |values| == |L.bands|
  {
    var e := m.frames[|m.frames| - 1].next;
    && e < |L.elements|
    && var el := L.elements[e];
    && (if HasBand(el) then
          && el.bandIndex < |L.bands|
          && |NextDrawn(L, values, m)| == 1 && NextDrawn(L, values, m)[0].row == e
          && var v := NextDrawn(L, values, m)[0].value;
          && var w := Write(el, v, Past(L, m).(cursor := Bump(m.cursor, el.bandIndex)));
          && MachineOk(L, w) && w.frames == Past(L, m).frames
          && Step(L, values, m) == Enter(L, e, v, w)
        else
          NextDrawn(L, values, m) == [] && Step(L, values, m) == Enter(L, e, 0, Past(L, m)))
  }

  lemma TurnOf(L: Layout, values: seq<seq<int>>, m: Machine)
    requires Indexed(L) && MachineOk(L, m) && m.frames != [] && |values| == |L.bands| && Step(L, values, m).Running?
    requires m.frames[|m.frames| - 1].next != NO_INDEX
    ensures TurnIs(L, values, m)
  {
    hide Enter; hide BigEndian; hide Zeros;
    var top := m.frames[|m.frames| - 1];
    assert FrameOk(L, top) && RowIndexed(L, top.next);
  }

  /** Below row e the machine pends what the reader reads there: row e, read to its end, leads to the same reading. */
  lemma EnterReads(L: Layout, s: Shape, e: nat, v: int, w: Machine, p: Payload, r: Reading, y: Reading, x: Reading, depth: nat)
    returns (z: Reading)
    requires WellFormed(L, s) && MachineOk(L, w) && e < |L.elements| && Enter(L, e, v, w).Running?
    requires if HasBand(L.elements[e]) then ReadItem(e, L.elements[e], p, r) == Some(y) else y == r
    requires Steers(L.elements[e]) ==> y.items != [] && y.items[|y.items| - 1].value == v
    requires ReadFrames(L, p, Enter(L, e, v, w).m.frames, y, depth) == Some(x)
    ensures ReadRow(L, p, e, r, depth) == Some(z) && ReadFrames(L, p, w.frames, z, depth) == Some(x)
  {
    hide ReadItem; hide ReadFrames; hide Select; hide Chosen; hide PairOk;
    assert RowOk(L, s, e) && RowIndexed(L, e);
    var el := L.elements[e];
    match el.kind
    case Replication =>
      z := Repeats(L, p, w, el.firstChild, v, y, x, depth);
    case Union =>
      ChosenIs(L, s, e, v);
      var c := Chosen(L, e, v);
      assert RowIndexed(L, c);
      var n := w.(visits := Bump(w.visits, c));
      z := Repeats(L, p, n, L.elements[c].firstChild, 1, y, x, depth);
      OnceIs(L, p, L.elements[c].firstChild, y, z, depth);
    case Call =>
      var c := L.callables[el.targetCallable].elementIndex;
      assert RowIndexed(L, c);
      var n := w.(visits := Bump(w.visits, c));
      z := Repeats(L, p, n, L.elements[c].firstChild, 1, y, x, depth);
      OnceIs(L, p, L.elements[c].firstChild, y, z, depth);
    case _ =>
      z := y;
  }

  lemma OnceIs(L: Layout, p: Payload, body: nat, y: Reading, z: Reading, depth: nat)
    requires Indexed(L) && Within(body, |L.elements|) && ReadTimes(L, p, body, 1, y, depth) == Some(z)
    ensures ReadRows(L, p, body, y, depth) == Some(z)
  {
  }

  /** The end of a frame: the reader starts the next repetition or goes on below. */
  lemma FrameEnds(L: Layout, p: Payload, m: Machine, n: Machine, values: seq<seq<int>>, r: Reading, x: Reading, depth: nat)
    requires Indexed(L) && MachineOk(L, m) && m.frames != [] && |values| == |L.bands|
    requires m.frames[|m.frames| - 1].next == NO_INDEX && Step(L, values, m) == Running(n)
    requires FramesOk(L, n.frames) && FramesOk(L, m.frames) && ReadFrames(L, p, n.frames, r, depth) == Some(x)
    ensures ReadFrames(L, p, m.frames, r, depth + 1) == Some(x)
  {
    hide ReadRow;
    var top := m.frames[|m.frames| - 1];
    var below := m.frames[..|m.frames| - 1];
    assert FrameOk(L, top);
    assert ReadRows(L, p, NO_INDEX, r, depth) == Some(r);
    FramesDeeper(L, p, n.frames, r, depth);
    if top.remaining > 1 {
      TopLast(below, Frame(top.repeatStart, top.repeatStart, top.remaining - 1));
    }
  }

  //
  // Whole runs
  //

  /** The turn at a row: what is read from the next machine on is what is read from this one on. */
  lemma TurnReads(L: Layout, s: Shape, values: seq<seq<int>>, m: Machine, p: Payload, r: Reading, y: Reading, x: Reading, depth: nat)
    requires WellFormed(L, s) && MachineOk(L, m) && m.frames != [] && |values| == |L.bands| && Step(L, values, m).Running?
    requires m.frames[|m.frames| - 1].next != NO_INDEX
    requires var t := NextDrawn(L, values, m);
      if t == [] then y == r
      else ReadItem(t[0].row, L.elements[t[0].row], p, r) == Some(y) && y.items != [] &&
           (Steers(L.elements[t[0].row]) ==> y.items[|y.items| - 1].value == t[0].value)
    requires ReadFrames(L, p, Step(L, values, m).m.frames, y, depth) == Some(x)
    ensures ReadFrames(L, p, m.frames, r, depth + 1) == Some(x)
  {
    hide ReadItem; hide ReadFrames; hide PairOk; hide RowOk; hide Enter; hide Step; hide ReadRow; hide NextDrawn; hide Write;
    TurnOf(L, values, m);
    var top := m.frames[|m.frames| - 1];
    var below := m.frames[..|m.frames| - 1];
    var e := top.next;
    var el := L.elements[e];
    var z;
    if HasBand(el) {
      var v := NextDrawn(L, values, m)[0].value;
      z := EnterReads(L, s, e, v, Write(el, v, Past(L, m).(cursor := Bump(m.cursor, el.bandIndex))), p, r, y, x, depth);
    } else {
      z := EnterReads(L, s, e, 0, Past(L, m), p, r, y, x, depth);
    }
    assert m.frames == below + [top];
    RowFirst(L, p, below, top, r, z, x, depth);
  }

  /** The item of this turn is read where the machine writes it. */
  lemma TurnItem(L: Layout, s: Shape, values: seq<seq<int>>, m: Machine, p: Payload, r: Reading) returns (y: Reading)
    requires WellFormed(L, s) && MachineOk(L, m) && m.frames != [] && |values| == |L.bands| && Step(L, values, m).Running?
    requires Begins(p, Step(L, values, m).m) && At(r, m)
    ensures At(y, Step(L, values, m).m)
    ensures y.items == r.items + Items(L, NextDrawn(L, values, m))
    ensures var t := NextDrawn(L, values, m);
      if t == [] then y == r else |t| == 1 && ReadItem(t[0].row, L.elements[t[0].row], p, r) == Some(y)
  {
    hide ReadItem; hide PairOk; hide RowOk; hide Step; hide Write; hide Begins; hide ItemOf; hide NextDrawn;
    var top := m.frames[|m.frames| - 1];
    assert FrameOk(L, top);
    if top.next == NO_INDEX {
      RestAt(L, values, m);
      y := r;
    } else {
      TurnOf(L, values, m);
      var el := L.elements[top.next];
      if HasBand(el) {
        var v := NextDrawn(L, values, m)[0].value;
        var w := Past(L, m).(cursor := Bump(m.cursor, el.bandIndex));
        EnterWrites(L, top.next, v, Write(el, v, w), p);
        ItemIsRead(L, s, top.next, v, w, p, r);
        assert NextDrawn(L, values, m) == [Drawn(top.next, v)];
        y := ReadItem(top.next, el, p, r).value;
      } else {
        EnterWrites(L, top.next, 0, Past(L, m), p);
        y := r;
      }
    }
  }

  lemma RestAt(L: Layout, values: seq<seq<int>>, m: Machine)
    requires Indexed(L) && MachineOk(L, m) && m.frames != [] && |values| == |L.bands| && Step(L, values, m).Running?
    requires m.frames[|m.frames| - 1].next == NO_INDEX
    ensures NextDrawn(L, values, m) == []
    ensures Step(L, values, m).m.bytes == m.bytes && Step(L, values, m).m.relocations == m.relocations
  {
  }

  lemma EnterWrites(L: Layout, e: nat, v: int, w: Machine, p: Payload)
    requires Indexed(L) && MachineOk(L, w) && e < |L.elements| && Enter(L, e, v, w).Running?
    ensures Enter(L, e, v, w).m.bytes == w.bytes && Enter(L, e, v, w).m.relocations == w.relocations
    ensures Begins(p, Enter(L, e, v, w).m) ==> Begins(p, w)
  {
    hide Select;
  }

  /** The item a count or tag that fits its field is read as holds the value itself. */
  lemma SteersTrue(L: Layout, s: Shape, d: Drawn)
    requires WellFormed(L, s) && d.row < |L.elements| && Fits(L, d)
    ensures ItemOf(L, d).value == d.value
  {
    hide Kept; hide CanHold; hide PairOk;
    KeptIs(d.value, L.elements[d.row].outputSize, L.elements[d.row].signed);
  }

  /**
   * Read along the rows it visits, what a finished run writes is every value it takes: fields as far as they
   * hold it, indices with the value and the marks of their row.
   */
  lemma {:induction false} RunAlong(L: Layout, s: Shape, values: seq<seq<int>>, m: Machine, fuel: nat, p: Payload, r: Reading)
    requires WellFormed(L, s) && MachineOk(L, m) && |values| == |L.bands| && Run(L, values, m, fuel).Done?
    requires Begins(p, Run(L, values, m, fuel).m) && At(r, m)
    ensures var n := Run(L, values, m, fuel).m; var t := Trace(L, values, m, fuel);
      ReadAlong(L, p, Rows(t), r) == Some(Reading(r.items + Items(L, t), |n.bytes|, |n.relocations|))
    decreases fuel
  {
    hide Step; hide ReadItem; hide Begins; hide ItemOf; hide NextDrawn; hide RowOk; hide PairOk;
    if m.frames == [] {
      assert r.items + Items(L, []) == r.items;
    } else {
      var m' := Step(L, values, m).m;
      BeginsNow(L, s, values, m', fuel - 1, p);
      var y := TurnItem(L, s, values, m, p, r);
      RunAlong(L, s, values, m', fuel - 1, p, y);
      Joined(L, values, m, fuel, r.items);
      var t, t' := NextDrawn(L, values, m), Trace(L, values, m', fuel - 1);
      if t != [] {
        assert Rows(t + t')[1..] == Rows(t');
      } else {
        assert t + t' == t';
      }
    }
  }

  lemma BeginsNow(L: Layout, s: Shape, values: seq<seq<int>>, m: Machine, fuel: nat, p: Payload)
    requires WellFormed(L, s) && MachineOk(L, m) && |values| == |L.bands| && Run(L, values, m, fuel).Done?
    requires Begins(p, Run(L, values, m, fuel).m)
    ensures Begins(p, m)
  {
    hide Moved; hide Run; hide RowOk; hide PairOk;
    RunAppends(L, s, values, m, fuel);
  }

  lemma Joined(L: Layout, values: seq<seq<int>>, m: Machine, fuel: nat, front: seq<Item>)
    requires Indexed(L) && MachineOk(L, m) && m.frames != [] && fuel > 0 && |values| == |L.bands| && Step(L, values, m).Running?
    ensures front + Items(L, NextDrawn(L, values, m)) + Items(L, Trace(L, values, Step(L, values, m).m, fuel - 1))
         == front + Items(L, Trace(L, values, m, fuel))
  {
    hide Step; hide NextDrawn; hide ItemOf;
    var t, t' := NextDrawn(L, values, m), Trace(L, values, Step(L, values, m).m, fuel - 1);
    assert Items(L, t) + Items(L, t') == Items(L, t + t');
  }

  /** With counts and tags that fit their fields, the tree leads the reader along the same rows. */
  lemma {:induction false} RunReads(L: Layout, s: Shape, values: seq<seq<int>>, m: Machine, fuel: nat, p: Payload, r: Reading)
    requires WellFormed(L, s) && MachineOk(L, m) && |values| == |L.bands| && Run(L, values, m, fuel).Done?
    requires Begins(p, Run(L, values, m, fuel).m) && At(r, m) && SteersFit(L, Trace(L, values, m, fuel))
    ensures FramesOk(L, m.frames)
    ensures var n := Run(L, values, m, fuel).m; var t := Trace(L, values, m, fuel);
      ReadFrames(L, p, m.frames, r, fuel) == Some(Reading(r.items + Items(L, t), |n.bytes|, |n.relocations|))
    decreases fuel
  {
    hide Step; hide ReadItem; hide Begins; hide ItemOf; hide NextDrawn; hide RowOk; hide PairOk; hide ReadFrames; hide Fits;
    if m.frames == [] {
      assert r.items + Items(L, []) == r.items;
      NoFrames(L, p, r, fuel);
    } else {
      var m' := Step(L, values, m).m;
      var t, t' := NextDrawn(L, values, m), Trace(L, values, m', fuel - 1);
      BeginsNow(L, s, values, m', fuel - 1, p);
      var y := TurnItem(L, s, values, m, p, r);
      FitsSplit(L, t, t');
      RunReads(L, s, values, m', fuel - 1, p, y);
      Joined(L, values, m, fuel, r.items);
      var x := ReadFrames(L, p, m'.frames, y, fuel - 1).value;
      if m.frames[|m.frames| - 1].next == NO_INDEX {
        RestAt(L, values, m);
        FrameEnds(L, p, m, m', values, r, x, fuel - 1);
      } else {
        if t != [] && Steers(L.elements[t[0].row]) {
          SteersTrue(L, s, t[0]);
        }
        TurnReads(L, s, values, m, p, r, y, x, fuel - 1);
      }
    }
  }

  lemma NoFrames(L: Layout, p: Payload, r: Reading, depth: nat)
    requires Indexed(L)
    ensures FramesOk(L, []) && ReadFrames(L, p, [], r, depth) == Some(r)
  {
  }

  lemma FitsSplit(L: Layout, t: seq<Drawn>, t': seq<Drawn>)
    requires InTable(L, t) && InTable(L, t') && SteersFit(L, t + t')
    ensures SteersFit(L, t) && SteersFit(L, t')
  {
    hide Fits; hide Steers;
    forall k | 0 <= k < |t| && Steers(L.elements[t[k].row])
      ensures Fits(L, t[k])
    {
      assert (t + t')[k] == t[k];
    }
    forall k | 0 <= k < |t'| && Steers(L.elements[t'[k].row])
      ensures Fits(L, t'[k])
    {
      assert (t + t')[|t| + k] == t'[k];
    }
  }

  //
  // One occurrence
  //

  /** The values occurrence i takes. */
  ghost function DrawnBy(L: Layout, values: seq<seq<int>>, limit: nat, i: nat): (t: seq<Drawn>)
    requires Indexed(L) && |values| == |L.bands|
    ensures InTable(L, t)
  {
    match Occurrences(L, values, i, limit)
    case Done(m) => Trace(L, values, Start(L, m), limit)
    case _ => []
  }

  /** The payload is what machine m has written. */
  ghost predicate Carries(p: Payload, m: Machine) {
    p.bytes == m.bytes && |p.relocations| == |m.relocations| && Begins(p, m)
  }

  lemma {:induction false} RowsMuchDeeper(L: Layout, p: Payload, row: nat, r: Reading, depth: nat, more: nat)
    requires Indexed(L) && Within(row, |L.elements|) && ReadRows(L, p, row, r, depth).Some? && depth <= more
    ensures ReadRows(L, p, row, r, more) == ReadRows(L, p, row, r, depth)
    decreases more
  {
    hide ReadRows;
    if depth < more {
      RowsMuchDeeper(L, p, row, r, depth, more - 1);
      RowsDeeper(L, p, row, r, more - 1);
    }
  }

  const NOTHING: Reading := Reading([], 0, 0)

  /**
   * Along the rows it visits, an occurrence is read to its last byte and relocation as the values it takes;
   * so it is by whoever walks the tree, when every count and tag fits its field.
   */
  lemma OccurrenceReads(L: Layout, s: Shape, values: seq<seq<int>>, limit: nat, i: nat, p: Payload, depth: nat)
    requires WellFormed(L, s) && |values| == |L.bands| && Occurrences(L, values, i + 1, limit).Done?
    requires Carries(p, Occurrences(L, values, i + 1, limit).m) && depth >= limit
    ensures var t := DrawnBy(L, values, limit, i);
      && ReadAlong(L, p, Rows(t), NOTHING) == Some(Reading(Items(L, t), |p.bytes|, |p.relocations|))
      && (SteersFit(L, t) ==> ReadsAs(L, p, Items(L, t), depth))
  {
    hide ReadFrames; hide ReadRows; hide ReadAlong; hide Run; hide Trace; hide Begins; hide RowOk; hide PairOk; hide SteersFit;
    var m := Occurrences(L, values, i, limit).m;
    var m0 := Start(L, m);
    var t := Trace(L, values, m0, limit);
    assert NOTHING.items + Items(L, t) == Items(L, t);
    RunAlong(L, s, values, m0, limit, p, NOTHING);
    if SteersFit(L, t) {
      RunReads(L, s, values, m0, limit, p, NOTHING);
      StartReads(L, m, p, ReadFrames(L, p, m0.frames, NOTHING, limit).value, limit, depth);
    }
  }

  lemma StartReads(L: Layout, m: Machine, p: Payload, x: Reading, depth: nat, more: nat)
    requires Indexed(L) && MachineOk(L, m) && FramesOk(L, Start(L, m).frames) && depth <= more
    requires ReadFrames(L, p, Start(L, m).frames, NOTHING, depth) == Some(x)
    ensures ReadAttribute(L, p, more) == Some(x)
  {
    hide ReadRows;
    var entry := EntryRow(L);
    assert RowIndexed(L, entry);
    var body := L.elements[entry].firstChild;
    var m0 := Machine([], m.cursor, if |L.callables| != 0 then Bump(m.visits, entry) else m.visits, [], []);
    var z := Repeats(L, p, m0, body, 1, NOTHING, x, depth);
    OnceIs(L, p, body, NOTHING, z, depth);
    RowsMuchDeeper(L, p, body, NOTHING, depth, more);
  }

  //
  // When the values themselves come back
  //

  /** The item that holds value v of its row, whatever the size of its field. */
  function Whole(L: Layout, d: Drawn): Item
    requires d.row < |L.elements|
  {
    if LeftOpen(L.elements[d.row]) then ItemOf(L, d) else Field(d.row, d.value)
  }

  function Wholes(L: Layout, t: seq<Drawn>): (r: seq<Item>)
    requires InTable(L, t)
  {
    seq(|t|, k requires 0 <= k < |t| => Whole(L, t[k]))
  }

  /** A field that was read fits its row. */
  predicate Sized(L: Layout, x: Item) {
    x.Field? ==> x.row < |L.elements| && CanHold(x.value, L.elements[x.row].outputSize, L.elements[x.row].signed)
  }

  ghost predicate AllSized(L: Layout, items: seq<Item>) {
    forall k :: 0 <= k < |items| ==> Sized(L, items[k])
  }

  lemma {:induction false} UnsignedBound(b: seq<byte>)
    ensures 0 <= FromBigEndian(b) < Pow2(8 * |b|)
  {
    if |b| > 0 {
      UnsignedBound(b[..|b| - 1]);
      Octave(|b| - 1);
    }
  }

  lemma FieldSized(b: seq<byte>, signed: bool)
    ensures CanHold(FieldValue(b, signed), |b|, signed)
  {
    hide Pow2;
    UnsignedBound(b);
  }

  lemma NothingSized(L: Layout)
    ensures AllSized(L, NOTHING.items)
  {
  }

  lemma ItemSized(L: Layout, e: nat, p: Payload, r: Reading)
    requires e < |L.elements| && AllSized(L, r.items)
    ensures var y := ReadItem(e, L.elements[e], p, r); y.Some? ==> AllSized(L, y.value.items)
  {
    hide FieldValue; hide CanHold;
    var el := L.elements[e];
    if !LeftOpen(el) && r.at + el.outputSize <= |p.bytes| {
      FieldSized(p.bytes[r.at..r.at + el.outputSize], el.signed);
    }
  }

  lemma {:induction false} RowsSized(L: Layout, p: Payload, row: nat, r: Reading, depth: nat)
    requires Indexed(L) && Within(row, |L.elements|) && AllSized(L, r.items)
    ensures var y := ReadRows(L, p, row, r, depth); y.Some? ==> AllSized(L, y.value.items)
    decreases depth, 0, 0
  {
    hide AllSized;
    if row != NO_INDEX && depth > 0 {
      assert RowIndexed(L, row);
      RowSized(L, p, row, r, depth - 1);
      if ReadRow(L, p, row, r, depth - 1).Some? {
        RowsSized(L, p, L.elements[row].nextSibling, ReadRow(L, p, row, r, depth - 1).value, depth - 1);
      }
    }
  }

  lemma {:induction false} RowSized(L: Layout, p: Payload, e: nat, r: Reading, depth: nat)
    requires Indexed(L) && e < |L.elements| && AllSized(L, r.items)
    ensures var y := ReadRow(L, p, e, r, depth); y.Some? ==> AllSized(L, y.value.items)
    decreases depth, 2, 0
  {
    hide AllSized; hide Chosen; hide ReadItem;
    assert RowIndexed(L, e);
    var el := L.elements[e];
    ItemSized(L, e, p, r);
    if el.kind == Call {
      var body := L.callables[el.targetCallable].elementIndex;
      assert RowIndexed(L, body);
      RowsSized(L, p, L.elements[body].firstChild, r, depth);
    } else if Steers(el) && ReadItem(e, el, p, r).Some? {
      var next := ReadItem(e, el, p, r).value;
      var v := next.items[|next.items| - 1].value;
      if el.kind == Replication && v >= 0 {
        TimesSized(L, p, el.firstChild, v, next, depth);
      } else if el.kind == Union && Chosen(L, e, v) != NO_INDEX {
        assert RowIndexed(L, Chosen(L, e, v));
        RowsSized(L, p, L.elements[Chosen(L, e, v)].firstChild, next, depth);
      }
    }
  }

  lemma {:induction false} TimesSized(L: Layout, p: Payload, body: nat, times: nat, r: Reading, depth: nat)
    requires Indexed(L) && Within(body, |L.elements|) && AllSized(L, r.items)
    ensures var y := ReadTimes(L, p, body, times, r, depth); y.Some? ==> AllSized(L, y.value.items)
    decreases depth, 1, times
  {
    hide AllSized;
    if body != NO_INDEX && times > 0 {
      RowsSized(L, p, body, r, depth);
      if ReadRows(L, p, body, r, depth).Some? {
        TimesSized(L, p, body, times - 1, ReadRows(L, p, body, r, depth).value, depth);
      }
    }
  }

  lemma WholeItems(L: Layout, t: seq<Drawn>)
    requires InTable(L, t)
    ensures AllFit(L, t) ==> Items(L, t) == Wholes(L, t) && SteersFit(L, t)
    ensures AllSized(L, Wholes(L, t)) ==> AllFit(L, t)
  {
    hide Kept; hide CanHold;
    if AllFit(L, t) {
      forall k | 0 <= k < |t|
        ensures Items(L, t)[k] == Wholes(L, t)[k]
      {
        KeptIs(t[k].value, L.elements[t[k].row].outputSize, L.elements[t[k].row].signed);
      }
    }
    if AllSized(L, Wholes(L, t)) {
      forall k | 0 <= k < |t|
        ensures Fits(L, t[k])
      {
        assert Sized(L, Wholes(L, t)[k]);
      }
    }
  }

  /** Whoever walks the tree reads the very values the occurrence took if and only if each fits its field. */
  lemma OccurrenceExactly(L: Layout, s: Shape, values: seq<seq<int>>, limit: nat, i: nat, p: Payload, depth: nat)
    requires WellFormed(L, s) && |values| == |L.bands| && Occurrences(L, values, i + 1, limit).Done?
    requires Carries(p, Occurrences(L, values, i + 1, limit).m) && depth >= limit
    ensures var t := DrawnBy(L, values, limit, i); ReadsAs(L, p, Wholes(L, t), depth) <==> AllFit(L, t)
  {
    hide ReadRows; hide Occurrences; hide Carries; hide RowOk; hide PairOk; hide AllFit; hide SteersFit; hide AllSized; hide DrawnBy;
    var t := DrawnBy(L, values, limit, i);
    WholeItems(L, t);
    OccurrenceReads(L, s, values, limit, i, p, depth);
    NothingSized(L);
    var top := if |L.callables| > 0 then L.callables[0].elementIndex else 0;
    assert RowIndexed(L, top);
    RowsSized(L, p, L.elements[top].firstChild, NOTHING, depth);
  }

  //
  // Every value of every band
  //

  /** The values of row e among those taken. */
  function Of(t: seq<Drawn>, e: nat): seq<int> {
    if t == [] then []
    else (if t[0].row == e then [t[0].value] else []) + Of(t[1..], e)
  }

  lemma NothingOf(e: nat)
    ensures Of([], e) == []
  {
  }

  lemma {:induction false} OfJoined(t: seq<Drawn>, t': seq<Drawn>, e: nat)
    ensures Of(t + t', e) == Of(t, e) + Of(t', e)
  {
    if t == [] {
      assert t + t' == t';
    } else {
      OfJoined(t[1..], t', e);
      assert (t + t')[1..] == t[1..] + t';
    }
  }

  /** A turn takes the value its band stands at, and no other. */
  lemma TurnTakes(L: Layout, s: Shape, values: seq<seq<int>>, m: Machine, b: nat)
    requires WellFormed(L, s) && MachineOk(L, m) && m.frames != [] && |values| == |L.bands| && Step(L, values, m).Running?
    requires b < |L.bands| && m.cursor[b] <= |values[b]|
    ensures var n := Step(L, values, m).m;
      m.cursor[b] <= n.cursor[b] <= |values[b]| && Of(NextDrawn(L, values, m), s.owner[b]) == values[b][m.cursor[b]..n.cursor[b]]
  {
    hide Select; hide PairOk; hide BigEndian; hide Zeros;
    var top := m.frames[|m.frames| - 1];
    assert FrameOk(L, top) && BandOk(L, s, b);
    var t := NextDrawn(L, values, m);
    assert |t| == 1 ==> t[1..] == [];
    if top.next != NO_INDEX {
      assert RowOk(L, s, top.next);
    }
  }

  lemma {:induction false} RunTakes(L: Layout, s: Shape, values: seq<seq<int>>, m: Machine, fuel: nat, b: nat)
    requires WellFormed(L, s) && MachineOk(L, m) && |values| == |L.bands| && Run(L, values, m, fuel).Done?
    requires b < |L.bands| && m.cursor[b] <= |values[b]|
    ensures var n := Run(L, values, m, fuel).m;
      && m.cursor[b] <= n.cursor[b] <= |values[b]|
      && Of(Trace(L, values, m, fuel), s.owner[b]) == values[b][m.cursor[b]..n.cursor[b]]
    decreases fuel
  {
    hide Step; hide NextDrawn; hide RowOk; hide PairOk; hide Of;
    if m.frames == [] {
      NothingOf(s.owner[b]);
    } else {
      var m' := Step(L, values, m).m;
      TurnTakes(L, s, values, m, b);
      RunTakes(L, s, values, m', fuel - 1, b);
      OfJoined(NextDrawn(L, values, m), Trace(L, values, m', fuel - 1), s.owner[b]);
      var n := Run(L, values, m, fuel).m;
      assert values[b][m.cursor[b]..m'.cursor[b]] + values[b][m'.cursor[b]..n.cursor[b]] == values[b][m.cursor[b]..n.cursor[b]];
    }
  }

  /** All that the first n occurrences take. */
  ghost function AllDrawn(L: Layout, values: seq<seq<int>>, limit: nat, n: nat): seq<Drawn>
    requires Indexed(L) && |values| == |L.bands|
  {
    if n == 0 then [] else AllDrawn(L, values, limit, n - 1) + DrawnBy(L, values, limit, n - 1)
  }

  /** Together the occurrences take every band from its front on, each value once and in order. */
  lemma {:induction false} AllTaken(L: Layout, s: Shape, values: seq<seq<int>>, limit: nat, n: nat, b: nat)
    requires WellFormed(L, s) && |values| == |L.bands| && Occurrences(L, values, n, limit).Done? && b < |L.bands|
    ensures var k := Occurrences(L, values, n, limit).m.cursor[b];
      k <= |values[b]| && Of(AllDrawn(L, values, limit, n), s.owner[b]) == values[b][..k]
  {
    hide Run; hide Trace; hide RowOk; hide PairOk; hide Of;
    if n == 0 {
      NothingOf(s.owner[b]);
    } else {
      AllTaken(L, s, values, limit, n - 1, b);
      var m := Occurrences(L, values, n - 1, limit).m;
      RunTakes(L, s, values, Start(L, m), limit, b);
      OfJoined(AllDrawn(L, values, limit, n - 1), DrawnBy(L, values, limit, n - 1), s.owner[b]);
      var k, k' := m.cursor[b], Occurrences(L, values, n, limit).m.cursor[b];
      assert values[b][..k] + values[b][k..k'] == values[b][..k'];
    }
  }

  //
  // In the buffers
  //

  lemma {:induction false} PayloadsAt(L: Layout, values: seq<seq<int>>, limit: nat, offsets: seq<nat>, n: nat, i: nat)
    requires Indexed(L) && |values| == |L.bands| && i < n <= |offsets|
    ensures AllPayloads(L, values, limit, n)[i] == PayloadOf(L, values, limit, i)
    ensures AllRelocations(L, values, limit, offsets, n)[i] == RelocationsOf(L, values, limit, i, offsets[i])
  {
    hide PayloadOf; hide RelocationsOf; hide Indexed;
    if i < n - 1 { PayloadsAt(L, values, limit, offsets, n - 1, i); }
  }

  /** Slice i of the filled buffers, taken as an attribute of its own. */
  function SliceOf(bytes: seq<byte>, entries: seq<Relocation>, offset: nat, length: nat, relocationOffset: nat, count: nat): Payload
    requires offset + length <= |bytes| && relocationOffset + count <= |entries|
  {
    Payload(bytes[offset..offset + length], entries[relocationOffset..relocationOffset + count], offset)
  }

  lemma ShiftedCarries(p: Payload, m: Machine)
    requires p.bytes == m.bytes && p.relocations == Shifted(m.relocations, p.base)
    ensures Carries(p, m)
  {
    forall k | 0 <= k < |m.relocations|
      ensures Moved(m.relocations[k], p.relocations[k], p.base)
    {
    }
  }

  /**
   * In the buffers the occurrences were emitted to, each slice is read to its last byte and relocation along
   * the rows its occurrence visits, and by whoever walks the tree exactly when the values fit.
   */
  lemma SlicesRead(L: Layout, s: Shape, values: seq<seq<int>>, limit: nat, n: nat, bytes: seq<byte>, entries: seq<Relocation>,
                   offsets: seq<nat>, lengths: seq<nat>, relocationOffsets: seq<nat>, counts: seq<nat>, i: nat, depth: nat)
    requires WellFormed(L, s) && |values| == |L.bands| && Occurrences(L, values, n, limit).Done? && n <= |offsets|
    requires Filled(bytes, offsets, lengths, n, AllPayloads(L, values, limit, n))
    requires Filled(entries, relocationOffsets, counts, n, AllRelocations(L, values, limit, offsets, n))
    requires i < n && depth >= limit
    ensures SliceInside(bytes, offsets[i], lengths[i]) && SliceInside(entries, relocationOffsets[i], counts[i])
    ensures var p := SliceOf(bytes, entries, offsets[i], lengths[i], relocationOffsets[i], counts[i]);
      var t := DrawnBy(L, values, limit, i);
      && ReadAlong(L, p, Rows(t), NOTHING) == Some(Reading(Items(L, t), |p.bytes|, |p.relocations|))
      && (SteersFit(L, t) ==> ReadsAs(L, p, Items(L, t), depth))
      && (ReadsAs(L, p, Wholes(L, t), depth) <==> AllFit(L, t))
  {
    hide Occurrences; hide AllPayloads; hide AllRelocations; hide RowOk; hide PairOk; hide ReadAlong; hide DrawnBy; hide ReadAttribute;
    hide SteersFit; hide AllFit;
    OccurrencesPrefix(L, values, n, i + 1, limit);
    PayloadsAt(L, values, limit, offsets, n, i);
    assert SliceIs(bytes, offsets[i], lengths[i], PayloadOf(L, values, limit, i));
    assert SliceIs(entries, relocationOffsets[i], counts[i], RelocationsOf(L, values, limit, i, offsets[i]));
    var p := SliceOf(bytes, entries, offsets[i], lengths[i], relocationOffsets[i], counts[i]);
    ShiftedCarries(p, Occurrences(L, values, i + 1, limit).m);
    OccurrenceReads(L, s, values, limit, i, p, depth);
    OccurrenceExactly(L, s, values, limit, i, p, depth);
  }

  predicate SliceInside<T>(buffer: seq<T>, offset: nat, length: nat) {
    offset + length <= |buffer|
  }
}
