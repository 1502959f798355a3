// The values of one layout's bands: measuring and emitting attribute payloads from them.
module LayoutBands {
  import opened Common
  import opened LayoutModel
  import opened LayoutMachine
  import opened LayoutFlow
  import opened LayoutTheorem
  import opened LayoutPayload
  import opened LayoutColumns
  import opened LayoutUnique
  import opened LayoutDecode
  import opened LayoutMeasured
  import opened BandSupply

  /** The case row that value v selects among `first` and its siblings. */
  method SelectCase(L: Layout, first: nat, v: int) returns (selected: nat)
    requires Indexed(L) && Within(first, |L.elements|)
    ensures selected == Select(L, first, NO_INDEX, v)
  {
    selected := NO_INDEX;
    var defaultCase := NO_INDEX;
    var caseIndex := first;
    while caseIndex != NO_INDEX
      invariant Within(caseIndex, |L.elements|) && Within(defaultCase, |L.elements|)
      invariant selected == NO_INDEX
      invariant Select(L, caseIndex, defaultCase, v) == Select(L, first, NO_INDEX, v)
      decreases if caseIndex == NO_INDEX then 0 else |L.elements| - caseIndex
    {
      assert RowIndexed(L, caseIndex);
      var unionCase := L.elements[caseIndex];
      if unionCase.selectorCount == 0 {
        defaultCase := caseIndex;
      } else {
        var matched := Matches(L, caseIndex, v);
        if matched {
          selected := caseIndex;
          return;
        }
      }
      caseIndex := unionCase.nextSibling;
    }
    selected := defaultCase;
  }

  /** `buffer` holds `data` from `base` on and is otherwise as `before`. */
  ghost predicate Holds<T>(buffer: seq<T>, before: seq<T>, base: nat, data: seq<T>) {
    && base + |data| <= |before|
    && buffer == before[..base] + data + before[base + |data|..]
  }

  /** Like Holds, for a buffer that may be absent. */
  ghost predicate Written<T>(buffer: array?<T>, before: seq<T>, base: nat, data: seq<T>)
    reads buffer
  {
    buffer != null ==> Holds(buffer[..], before, base, data)
  }

  lemma HoldsMore<T>(buffer: seq<T>, before: seq<T>, base: nat, data: seq<T>, x: T)
    requires Holds(buffer, before, base, data) && base + |data| < |before|
    ensures Holds(buffer[base + |data| := x], before, base, data + [x])
  {
  }

  /** Append the `size` low-order bytes of v to the `data` already stored behind `base`. */
  method WriteInteger(payload: array?<byte>, base: nat, length: nat, v: int, size: nat,
                      ghost data: seq<byte>, ghost before: seq<byte>)
    requires payload != null ==> base + length + size <= payload.Length
    requires length == |data| && Written(payload, before, base, data)
    modifies payload
    ensures Written(payload, before, base, data + BigEndian(v, size))
  {
    hide Pow2;
    if payload != null {
      var bits := v % 0x1_0000_0000;
      ghost var written: seq<byte> := [];
      for i := 0 to size
        invariant written == BigEndian(v, size)[..i]
        invariant Holds(payload[..], before, base, data + written)
      {
        ghost var was := payload[..];
        var x: byte := bits / Pow2(8 * (size - i - 1)) % 0x100;
        assert x == ByteOf(v, size - i - 1);
        payload[base + length + i] := x;
        assert payload[..] == was[base + length + i := x];
        HoldsMore(was, before, base, data + written, x);
        assert data + written + [x] == data + (written + [x]);
        assert BigEndian(v, size)[i] == x;
        written := written + [x];
      }
      assert written == BigEndian(v, size);
    }
  }

  method ZeroBytes(payload: array?<byte>, base: nat, length: nat, size: nat,
                   ghost data: seq<byte>, ghost before: seq<byte>)
    requires payload != null ==> base + length + size <= payload.Length
    requires length == |data| && Written(payload, before, base, data)
    modifies payload
    ensures Written(payload, before, base, data + Zeros(size))
  {
    if payload != null {
      ghost var written: seq<byte> := [];
      for i := 0 to size
        invariant written == Zeros(size)[..i]
        invariant Holds(payload[..], before, base, data + written)
      {
        ghost var was := payload[..];
        payload[base + length + i] := 0;
        assert payload[..] == was[base + length + i := 0];
        HoldsMore(was, before, base, data + written, 0);
        assert data + written + [0] == data + (written + [0]);
        written := written + [0];
      }
      assert written == Zeros(size);
    }
  }

  method PutRelocation(relocations: array?<Relocation>, base: nat, count: nat, r: Relocation,
                       ghost data: seq<Relocation>, ghost before: seq<Relocation>)
    requires relocations != null ==> base + count < relocations.Length
    requires count == |data| && Written(relocations, before, base, data)
    modifies relocations
    ensures Written(relocations, before, base, data + [r])
  {
    if relocations != null {
      ghost var was := relocations[..];
      relocations[base + count] := r;
      assert relocations[..] == was[base + count := r];
      HoldsMore(was, before, base, data, r);
    }
  }

  /** Write what row `el` contributes for value v behind the `length` bytes already there. */
  method WriteElement(el: Element, v: int, payload: array?<byte>, base: nat, capacity: nat, length: nat,
                      relocations: array?<Relocation>, relocationBase: nat, relocationCapacity: nat,
                      relocationCount: nat, ghost m: Machine, ghost before: seq<byte>, ghost relocsBefore: seq<Relocation>)
    returns (status: Status, length': nat, relocationCount': nat)
    requires HasBand(el)
    requires length == |m.bytes| <= capacity <= SIZE_MAX
    requires relocationCount == |m.relocations| <= relocationCapacity
    requires payload != null ==> base + capacity <= payload.Length
    requires relocations != null ==> relocationBase + relocationCapacity <= relocations.Length
    requires Written(payload, before, base, m.bytes) && Written(relocations, relocsBefore, relocationBase, m.relocations)
    modifies payload, relocations
    ensures status == Success <==>
              |Write(el, v, m).bytes| <= capacity && |Write(el, v, m).relocations| <= relocationCapacity
    ensures status == Success ==>
              && length' == |Write(el, v, m).bytes| && relocationCount' == |Write(el, v, m).relocations|
              && Written(payload, before, base, Write(el, v, m).bytes)
              && Written(relocations, relocsBefore, relocationBase, Write(el, v, m).relocations)
    ensures status != Success ==> status == BufferTooSmall
  {
    length', relocationCount' := length, relocationCount;
    var end := length + el.outputSize;
    if el.kind != Reference && el.bciKind == NoBci {
      if end > SIZE_MAX || end > capacity {
        return BufferTooSmall, length', relocationCount';
      }
      WriteInteger(payload, base, length, v, el.outputSize, m.bytes, before);
      length' := end;
    } else {
      if end > SIZE_MAX || end > capacity || relocationCount >= relocationCapacity {
        return BufferTooSmall, length', relocationCount';
      }
      ZeroBytes(payload, base, length, el.outputSize, m.bytes, before);
      PutRelocation(relocations, relocationBase, relocationCount, RelocationOf(el, v, length), m.relocations, relocsBefore);
      relocationCount' := relocationCount + 1;
      length' := end;
    }
    status := Success;
  }

  /** Push the frame for what lies below row e; `visits` records the rows entered. */
  method Descend(L: Layout, e: nat, v: int, frames: seq<Frame>, ghost m: Machine)
    returns (status: Status, frames': seq<Frame>, ghost r: StepResult)
    requires Indexed(L) && MachineOk(L, m) && e < |L.elements| && m.frames == frames
    ensures r == Enter(L, e, v, m)
    ensures status == Success <==> r.Running?
    ensures r.Running? ==> frames' == r.m.frames
    ensures status == Success || status == InvalidNetworkResponse
  {
    r := Enter(L, e, v, m);
    frames' := frames;
    assert RowIndexed(L, e);
    var el := L.elements[e];
    if el.kind == Replication {
      if v < 0 {
        return InvalidNetworkResponse, frames', r;
      }
      if v != 0 && el.firstChild != NO_INDEX {
        if |frames| >= MAX_FRAMES {
          return InvalidNetworkResponse, frames', r;
        }
        frames' := frames + [Frame(el.firstChild, el.firstChild, v)];
      }
    } else if el.kind == Union {
      var selected := SelectCase(L, el.firstChild, v);
      if selected == NO_INDEX {
        return InvalidNetworkResponse, frames', r;
      }
      assert RowIndexed(L, selected);
      var body := L.elements[selected].firstChild;
      if body != NO_INDEX {
        if |frames| >= MAX_FRAMES {
          return InvalidNetworkResponse, frames', r;
        }
        frames' := frames + [Frame(body, body, 1)];
      }
    } else if el.kind == Call {
      if |frames| >= MAX_FRAMES {
        return InvalidNetworkResponse, frames', r;
      }
      var callableElement := L.callables[el.targetCallable].elementIndex;
      assert RowIndexed(L, callableElement);
      var body := L.elements[callableElement].firstChild;
      if body != NO_INDEX {
        frames' := frames + [Frame(body, body, 1)];
      }
    }
    status := Success;
  }

  /** Descending writes nothing and takes nothing. */
  lemma EnterKeeps(L: Layout, e: nat, v: int, m: Machine)
    requires Indexed(L) && MachineOk(L, m) && e < |L.elements|
    ensures var r := Enter(L, e, v, m);
      r.Running? ==> r.m.bytes == m.bytes && r.m.relocations == m.relocations && r.m.cursor == m.cursor
  {
  }

  lemma WriteOnly(el: Element, v: int, m: Machine)
    ensures Write(el, v, m).cursor == m.cursor && Write(el, v, m).frames == m.frames && Write(el, v, m).visits == m.visits
  {
  }

  lemma StepAt(L: Layout, values: seq<seq<int>>, m: Machine, e: nat, v: int)
    requires Indexed(L) && MachineOk(L, m) && m.frames != [] && |values| == |L.bands|
    requires m.frames[|m.frames| - 1].next == e < |L.elements| && HasBand(L.elements[e])
    requires RowIndexed(L, e)
    requires m.cursor[L.elements[e].bandIndex] < |values[L.elements[e].bandIndex]|
    requires v == values[L.elements[e].bandIndex][m.cursor[L.elements[e].bandIndex]]
    ensures MachineOk(L, Write(L.elements[e], v, Moved(L, m, e)))
    ensures Step(L, values, m) == Enter(L, e, v, Write(L.elements[e], v, Moved(L, m, e)))
  {
  }

  /** One turn less to run; a payload that has outgrown its slice never shrinks back. */
  lemma RunTurn(L: Layout, s: Shape, values: seq<seq<int>>, m: Machine, fuel: nat)
    requires WellFormed(L, s) && MachineOk(L, m) && |values| == |L.bands| && m.frames != []
    ensures fuel == 0 ==> Run(L, values, m, fuel) == LimitHit
    ensures fuel > 0 && Step(L, values, m).Running? ==>
              Run(L, values, m, fuel) == Run(L, values, Step(L, values, m).m, fuel - 1)
    ensures Run(L, values, m, fuel).Done? ==>
              && fuel > 0 && Step(L, values, m).Running?
              && |Run(L, values, m, fuel).m.bytes| >= |Step(L, values, m).m.bytes|
              && |Run(L, values, m, fuel).m.relocations| >= |Step(L, values, m).m.relocations|
  {
    if Run(L, values, m, fuel).Done? {
      RunAppends(L, s, values, Step(L, values, m).m, fuel - 1);
    }
  }

  lemma RunEnd(L: Layout, values: seq<seq<int>>, m: Machine, fuel: nat)
    requires Indexed(L) && MachineOk(L, m) && |values| == |L.bands| && m.frames == []
    ensures Run(L, values, m, fuel) == Done(m)
  {
  }

  lemma FinishStep(L: Layout, values: seq<seq<int>>, m: Machine)
    requires Indexed(L) && MachineOk(L, m) && |values| == |L.bands| && m.frames != []
    requires m.frames[|m.frames| - 1].next == NO_INDEX
    ensures var top := m.frames[|m.frames| - 1];
      Step(L, values, m) == Running(m.(frames := m.frames[..|m.frames| - 1] +
        if top.remaining > 1 then [Frame(top.repeatStart, top.repeatStart, top.remaining - 1)] else []))
  {
    assert FrameOk(L, m.frames[|m.frames| - 1]);
    assert m.frames[..|m.frames| - 1] + [] == m.frames[..|m.frames| - 1];
  }

  /** Every value of every band has been given out. */
  ghost predicate AllUsed(values: seq<seq<int>>, cursor: seq<nat>) {
    |cursor| == |values| && forall b :: 0 <= b < |values| ==> cursor[b] == |values[b]|
  }

  /** Occurrence i writes `length` bytes and `count` relocations. */
  ghost predicate Produces(L: Layout, values: seq<seq<int>>, limit: nat, i: nat, length: nat, count: nat)
    requires Indexed(L) && |values| == |L.bands|
  {
    var r := Occurrences(L, values, i + 1, limit);
    r.Done? && |r.m.bytes| == length && |r.m.relocations| == count
  }

  /** The first n occurrences run, and the lists record what each of them writes. */
  ghost predicate Planned(L: Layout, values: seq<seq<int>>, limit: nat, n: nat, lengths: seq<nat>, counts: seq<nat>)
    requires Indexed(L) && |values| == |L.bands|
  {
    && n <= |lengths| && n <= |counts|
    && forall i: nat :: i < n ==> Produces(L, values, limit, i, lengths[i], counts[i])
  }

  lemma {:induction false} OccurrencesPrefix(L: Layout, values: seq<seq<int>>, n: nat, k: nat, limit: nat)
    requires Indexed(L) && |values| == |L.bands| && k <= n && Occurrences(L, values, n, limit).Done?
    ensures Occurrences(L, values, k, limit).Done?
    decreases n
  {
    hide Run; hide Start;
    if k < n { OccurrencesPrefix(L, values, n - 1, k, limit); }
  }

  /** Slice i of the plan lies inside a buffer of the given size. */
  predicate InBuffer(offset: nat, length: nat, capacity: nat) {
    offset <= capacity && length <= capacity - offset
  }

  /** The slices fit their buffer and no two of them overlap. */
  ghost predicate Apart(offsets: seq<nat>, lengths: seq<nat>, n: nat) {
    && n <= |offsets| && n <= |lengths|
    && forall i, j :: 0 <= i < j < n ==>
         offsets[i] + lengths[i] <= offsets[j] || offsets[j] + lengths[j] <= offsets[i]
  }

  lemma ApartPrefix(offsets: seq<nat>, lengths: seq<nat>, n: nat, k: nat)
    requires Apart(offsets, lengths, n) && k <= n
    ensures Apart(offsets, lengths, k)
  {
  }

  /** The first n slices of `buffer` hold what `data` gives for them. */
  ghost predicate Filled<T(!new)>(buffer: seq<T>, offsets: seq<nat>, lengths: seq<nat>, n: nat, data: seq<seq<T>>) {
    && n <= |offsets| && n <= |lengths| && n <= |data|
    && forall i: nat :: i < n ==> SliceIs(buffer, offsets[i], lengths[i], data[i])
  }

  ghost predicate SliceIs<T>(buffer: seq<T>, offset: nat, length: nat, data: seq<T>) {
    offset + length <= |buffer| && buffer[offset..offset + length] == data
  }

  /** Filling one more slice disturbs none of the earlier ones. */
  lemma FillNext<T(!new)>(buffer: seq<T>, before: seq<T>, offsets: seq<nat>, lengths: seq<nat>, n: nat,
                          data: seq<seq<T>>, next: seq<T>)
    requires n < |offsets| && n < |lengths| && n == |data| && |next| == lengths[n]
    requires Filled(before, offsets, lengths, n, data) && Apart(offsets, lengths, n + 1)
    requires Holds(buffer, before, offsets[n], next)
    ensures Filled(buffer, offsets, lengths, n + 1, data + [next])
  {
    forall i: nat | i < n + 1
      ensures SliceIs(buffer, offsets[i], lengths[i], (data + [next])[i])
    {
      if i < n {
        assert SliceIs(before, offsets[i], lengths[i], data[i]);
        SliceKept(buffer, before, offsets[n], next, offsets[i], offsets[i] + lengths[i]);
      }
    }
  }

  lemma SliceKept<T>(buffer: seq<T>, before: seq<T>, base: nat, data: seq<T>, lo: nat, hi: nat)
    requires Holds(buffer, before, base, data) && lo <= hi <= |before|
    requires hi <= base || base + |data| <= lo
    ensures buffer[lo..hi] == before[lo..hi]
  {
  }

  /** The first n slices start at k or later. */
  predicate Behind(offsets: seq<nat>, n: nat, k: nat) {
    n <= |offsets| && forall i :: 0 <= i < n ==> k <= offsets[i]
  }

  /** Nothing in front of the first n slices has changed. */
  ghost predicate FrontKept<T(!new)>(buffer: seq<T>, before: seq<T>, offsets: seq<nat>, n: nat) {
    && |buffer| == |before|
    && forall k: nat :: k <= |buffer| && Behind(offsets, n, k) ==> buffer[..k] == before[..k]
  }

  lemma NothingPut<T(!new)>(buffer: seq<T>, offsets: seq<nat>)
    ensures FrontKept(buffer, buffer, offsets, 0)
  {
  }

  lemma FrontStays<T(!new)>(buffer: seq<T>, middle: seq<T>, before: seq<T>, offsets: seq<nat>, n: nat, data: seq<T>)
    requires n < |offsets| && FrontKept(middle, before, offsets, n) && Holds(buffer, middle, offsets[n], data)
    ensures FrontKept(buffer, before, offsets, n + 1)
  {
    forall k: nat | k <= |buffer| && Behind(offsets, n + 1, k)
      ensures buffer[..k] == before[..k]
    {
      assert Behind(offsets, n, k) && k <= offsets[n];
      assert buffer[..k] == middle[..k];
    }
  }

  /** Relocations of one slice, counted from the start of the whole payload buffer. */
  function Shifted(relocations: seq<Relocation>, delta: nat): (r: seq<Relocation>)
    ensures |r| == |relocations|
  {
    seq(|relocations|, i requires 0 <= i < |relocations| =>
      relocations[i].(offset := relocations[i].offset + delta))
  }

  method ShiftRelocations(relocations: array<Relocation>, base: nat, count: nat, delta: nat,
                          ghost before: seq<Relocation>, ghost data: seq<Relocation>)
    requires count == |data| && Holds(relocations[..], before, base, data)
    modifies relocations
    ensures Holds(relocations[..], before, base, Shifted(data, delta))
  {
    ghost var now := data;
    for i := 0 to count
      invariant |now| == count && now[..i] == Shifted(data, delta)[..i] && now[i..] == data[i..]
      invariant Holds(relocations[..], before, base, now)
    {
      ghost var was := relocations[..];
      assert relocations[..][base + i] == now[i];
      assert now[i] == data[i..][0];
      relocations[base + i] := relocations[base + i].(offset := relocations[base + i].offset + delta);
      assert relocations[..] == was[base + i := Shifted(data, delta)[i]];
      now := now[i := Shifted(data, delta)[i]];
    }
  }

  /** What occurrence i writes, and its relocations counted from the start of the whole payload. */
  ghost function PayloadOf(L: Layout, values: seq<seq<int>>, limit: nat, i: nat): seq<byte>
    requires Indexed(L) && |values| == |L.bands|
  {
    match Occurrences(L, values, i + 1, limit)
    case Done(m) => m.bytes
    case _ => []
  }

  ghost function RelocationsOf(L: Layout, values: seq<seq<int>>, limit: nat, i: nat, offset: nat): seq<Relocation>
    requires Indexed(L) && |values| == |L.bands|
  {
    match Occurrences(L, values, i + 1, limit)
    case Done(m) => Shifted(m.relocations, offset)
    case _ => []
  }

  ghost function AllPayloads(L: Layout, values: seq<seq<int>>, limit: nat, n: nat): (r: seq<seq<byte>>)
    requires Indexed(L) && |values| == |L.bands|
    ensures |r| == n
  {
    if n == 0 then [] else AllPayloads(L, values, limit, n - 1) + [PayloadOf(L, values, limit, n - 1)]
  }

  ghost function AllRelocations(L: Layout, values: seq<seq<int>>, limit: nat, offsets: seq<nat>, n: nat)
    : (r: seq<seq<Relocation>>)
    requires Indexed(L) && |values| == |L.bands| && n <= |offsets|
    ensures |r| == n
  {
    if n == 0 then [] else
    AllRelocations(L, values, limit, offsets, n - 1) + [RelocationsOf(L, values, limit, n - 1, offsets[n - 1])]
  }

  /** Occurrence i agrees with the plan and its slices fit the buffers. */
  ghost predicate Emittable(L: Layout, values: seq<seq<int>>, limit: nat, i: nat,
                            payloadOffsets: seq<nat>, payloadLengths: seq<nat>,
                            relocationOffsets: seq<nat>, relocationCounts: seq<nat>,
                            payloadCapacity: nat, relocationCapacity: nat)
    requires Indexed(L) && |values| == |L.bands|
    requires i < |payloadOffsets| == |payloadLengths| == |relocationOffsets| == |relocationCounts|
  {
    && InBuffer(payloadOffsets[i], payloadLengths[i], payloadCapacity)
    && InBuffer(relocationOffsets[i], relocationCounts[i], relocationCapacity)
    && Produces(L, values, limit, i, payloadLengths[i], relocationCounts[i])
  }

  class AttributeValueBands {
    /** The step limit of one occurrence. */
    const stepLimit: nat
    /** The values of each band, and how many of them have been given out. */
    var values: seq<seq<int>>
    var cursor: seq<nat>
    /** How often each row of the layout has been entered. */
    ghost var visits: seq<nat>
    /** How often each row will be entered according to the columns. */
    ghost var demand: seq<nat>

    ghost function State(): Machine
      reads this
    {
      Machine([], cursor, visits, [], [])
    }

    ghost predicate Fits(L: Layout)
      reads this
    {
      Indexed(L) && |values| == |cursor| == |L.bands| && |visits| == |L.elements| && stepLimit <= MAX_STEPS
    }

    constructor ()
      ensures stepLimit == MAX_STEPS && values == [] && cursor == []
    {
      stepLimit := MAX_STEPS;
      values, cursor := [], [];
      visits, demand := [], [];
    }

    /** Read the values of every band, column by column, for the given number of occurrences. */
    method Decode(L: Layout, ghost s: Shape, occurrences: nat, backwardCalls: seq<nat>, source: BandSource)
      returns (status: Status)
      requires WellFormed(L, s) && source.Valid() && stepLimit <= MAX_STEPS
      modifies this, source
      ensures source.Valid()
      ensures status == InvalidParameter <==> |backwardCalls| != L.backwardCallables
      // it succeeds exactly when the supply goes on with balanced columns, which are then the ones it reads
      ensures status == Success <==>
                |backwardCalls| == L.backwardCallables && Spelt(L, s, occurrences, backwardCalls, source.supply[old(source.position)..])
      ensures status == Success ==>
                && Fits(L)
                && Columned(L, s, occurrences, DeclaredOf(L, backwardCalls, |L.callables|),
                            source.supply[old(source.position)..], values, demand)
      ensures status == Success && NoBackwardCall(L) ==> Balanced(L, s, occurrences, values, demand)
      // the bands are consecutive pieces of the supply in band order, each read in its own coding
      ensures status == Success ==>
                && source.position == old(source.position) + |Laid(values, |values|)|
                && source.delivered == old(source.delivered) + Deliveries(L, values, |values|)
    {
      hide PairOk; hide RowOk; hide RowBalancedWith; hide BandBalanced; hide Laid; hide Flatten; hide Deliveries;
      hide TotalFits; hide EntriesFit;
      values, cursor := [], [];
      if |backwardCalls| != L.backwardCallables {
        return InvalidParameter;
      }
      var declared := CallableEntries(L, backwardCalls);
      var read;
      ghost var counts;
      status, read, counts := ReadAll(L, s, source, occurrences, declared);
      if status != Success {
        return;
      }
      if NoBackwardCall(L) {
        ForwardBalanced(L, s, occurrences, backwardCalls, read, counts);
      }
      values := read;
      demand := counts;
      cursor := seq(|values|, _ => 0);
      visits := seq(|L.elements|, _ => 0);
    }

    /** Consume one value for row e, if it has a band, and write it. */
    method TakeValue(L: Layout, e: nat, payload: array?<byte>, base: nat, capacity: nat, length: nat,
                     relocations: array?<Relocation>, relocationBase: nat, relocationCapacity: nat, count: nat,
                     ghost cur: Machine, ghost before: seq<byte>, ghost relocsBefore: seq<Relocation>)
      returns (status: Status, value: int, length': nat, count': nat, ghost moved: Machine)
      requires Fits(L) && MachineOk(L, cur) && cur.cursor == cursor && e < |L.elements|
      requires cur.frames != [] && cur.frames[|cur.frames| - 1].next == e != NO_INDEX
      requires length == |cur.bytes| <= capacity <= SIZE_MAX && count == |cur.relocations| <= relocationCapacity
      requires payload != null ==> base + capacity <= payload.Length
      requires relocations != null ==> relocationBase + relocationCapacity <= relocations.Length
      requires Written(payload, before, base, cur.bytes) && Written(relocations, relocsBefore, relocationBase, cur.relocations)
      modifies this`cursor, payload, relocations
      ensures Fits(L)
      ensures status == Success ==>
                && MachineOk(L, moved) && moved.cursor == cursor && Step(L, values, cur) == Enter(L, e, value, moved)
                && moved.frames == cur.frames[..|cur.frames| - 1]
                                   + [cur.frames[|cur.frames| - 1].(next := L.elements[e].nextSibling)]
                && length' == |moved.bytes| <= capacity && count' == |moved.relocations| <= relocationCapacity
                && Written(payload, before, base, moved.bytes)
                && Written(relocations, relocsBefore, relocationBase, moved.relocations)
      ensures status != Success ==>
                Step(L, values, cur).Running? ==>
                  var n := Step(L, values, cur).m;
                  |n.bytes| > capacity || |n.relocations| > relocationCapacity
      ensures status == Success || status == BufferTooSmall || status == InvalidNetworkResponse
    {
      hide Written; hide Enter; hide Write;
      status, value, length', count' := Success, 0, length, count;
      assert RowIndexed(L, e) && FrameOk(L, cur.frames[|cur.frames| - 1]);
      var element := L.elements[e];
      moved := Moved(L, cur, e);
      if HasBand(element) {
        var b := element.bandIndex;
        if cursor[b] >= |values[b]| {
          return InvalidNetworkResponse, value, length', count', moved;
        }
        value := values[b][cursor[b]];
        StepAt(L, values, cur, e, value);
        cursor := cursor[b := cursor[b] + 1];
        WriteOnly(element, value, moved);
        status, length', count' :=
          WriteElement(element, value, payload, base, capacity, length,
                       relocations, relocationBase, relocationCapacity, count, moved, before, relocsBefore);
        moved := Write(element, value, moved);
        EnterKeeps(L, e, value, moved);
      }
    }

    /** Visit the row the top frame stands at: take its value and descend. */
    method VisitRow(L: Layout, frames: seq<Frame>, payload: array?<byte>, base: nat, capacity: nat, length: nat,
                    relocations: array?<Relocation>, relocationBase: nat, relocationCapacity: nat, count: nat,
                    ghost cur: Machine, ghost before: seq<byte>, ghost relocsBefore: seq<Relocation>)
      returns (status: Status, frames': seq<Frame>, length': nat, count': nat)
      requires Fits(L) && MachineOk(L, cur) && cur.frames == frames && cur.cursor == cursor
      requires |frames| != 0 && frames[|frames| - 1].next != NO_INDEX
      requires length == |cur.bytes| <= capacity <= SIZE_MAX && count == |cur.relocations| <= relocationCapacity
      requires payload != null ==> base + capacity <= payload.Length
      requires relocations != null ==> relocationBase + relocationCapacity <= relocations.Length
      requires Written(payload, before, base, cur.bytes) && Written(relocations, relocsBefore, relocationBase, cur.relocations)
      modifies this`cursor, payload, relocations
      ensures Fits(L)
      ensures status == Success ==>
                && Step(L, values, cur).Running?
                && var n := Step(L, values, cur).m;
                && frames' == n.frames && cursor == n.cursor
                && length' == |n.bytes| <= capacity && count' == |n.relocations| <= relocationCapacity
                && Written(payload, before, base, n.bytes) && Written(relocations, relocsBefore, relocationBase, n.relocations)
      ensures status != Success ==>
                Step(L, values, cur).Running? ==>
                  var n := Step(L, values, cur).m;
                  |n.bytes| > capacity || |n.relocations| > relocationCapacity
      ensures status == Success || status == BufferTooSmall || status == InvalidNetworkResponse
    {
      hide Written; hide Step; hide Enter;
      var top := frames[|frames| - 1];
      assert FrameOk(L, top);
      var e := top.next;
      var value;
      ghost var moved, entered;
      status, value, length', count', moved :=
        TakeValue(L, e, payload, base, capacity, length, relocations, relocationBase, relocationCapacity, count,
                  cur, before, relocsBefore);
      frames' := frames[..|frames| - 1] + [top.(next := L.elements[e].nextSibling)];
      if status != Success {
        return;
      }
      EnterKeeps(L, e, value, moved);
      status, frames', entered := Descend(L, e, value, frames', moved);
    }

    /** One turn: finish the top frame or visit the row it stands at. */
    method Turn(L: Layout, frames: seq<Frame>, payload: array?<byte>, base: nat, capacity: nat, length: nat,
                relocations: array?<Relocation>, relocationBase: nat, relocationCapacity: nat, count: nat,
                ghost cur: Machine, ghost before: seq<byte>, ghost relocsBefore: seq<Relocation>)
      returns (status: Status, frames': seq<Frame>, length': nat, count': nat)
      requires Fits(L) && MachineOk(L, cur) && cur.frames == frames && cur.cursor == cursor
      requires |frames| != 0
      requires length == |cur.bytes| <= capacity <= SIZE_MAX && count == |cur.relocations| <= relocationCapacity
      requires payload != null ==> base + capacity <= payload.Length
      requires relocations != null ==> relocationBase + relocationCapacity <= relocations.Length
      requires Written(payload, before, base, cur.bytes) && Written(relocations, relocsBefore, relocationBase, cur.relocations)
      modifies this`cursor, payload, relocations
      ensures Fits(L)
      ensures status == Success ==>
                && Step(L, values, cur).Running?
                && var n := Step(L, values, cur).m;
                && frames' == n.frames && cursor == n.cursor
                && length' == |n.bytes| <= capacity && count' == |n.relocations| <= relocationCapacity
                && Written(payload, before, base, n.bytes) && Written(relocations, relocsBefore, relocationBase, n.relocations)
      ensures status != Success ==>
                Step(L, values, cur).Running? ==>
                  var n := Step(L, values, cur).m;
                  |n.bytes| > capacity || |n.relocations| > relocationCapacity
      ensures status == Success || status == BufferTooSmall || status == InvalidNetworkResponse
    {
      length', count' := length, count;
      var top := frames[|frames| - 1];
      assert FrameOk(L, top);
      if top.next == NO_INDEX {
        FinishStep(L, values, cur);
        if top.remaining - 1 != 0 {
          frames' := frames[..|frames| - 1] + [Frame(top.repeatStart, top.repeatStart, top.remaining - 1)];
        } else {
          frames' := frames[..|frames| - 1];
        }
        status := Success;
      } else {
        status, frames', length', count' :=
          VisitRow(L, frames, payload, base, capacity, length,
                   relocations, relocationBase, relocationCapacity, count, cur, before, relocsBefore);
      }
    }

    /** Turn the machine until its stack is empty. */
    method Execute(L: Layout, ghost s: Shape, initial: seq<Frame>, payload: array?<byte>, base: nat, capacity: nat,
                   relocations: array?<Relocation>, relocationBase: nat, relocationCapacity: nat,
                   ghost start: Machine, ghost before: seq<byte>, ghost relocsBefore: seq<Relocation>)
      returns (status: Status, payloadLength: nat, relocationCount: nat)
      requires Fits(L) && WellFormed(L, s) && MachineOk(L, start)
      requires start.frames == initial && start.cursor == cursor && start.bytes == [] && start.relocations == []
      requires capacity <= SIZE_MAX
      requires payload != null ==> base + capacity <= payload.Length
      requires relocations != null ==> relocationBase + relocationCapacity <= relocations.Length
      requires Written(payload, before, base, []) && Written(relocations, relocsBefore, relocationBase, [])
      modifies this`cursor, this`visits, payload, relocations
      ensures Fits(L)
      ensures var r := Run(L, values, start, stepLimit);
              status == Success <==>
                r.Done? && |r.m.bytes| <= capacity && |r.m.relocations| <= relocationCapacity
      ensures status == Success ==>
                var m := Run(L, values, start, stepLimit).m;
                && cursor == m.cursor && visits == m.visits
                && payloadLength == |m.bytes| && relocationCount == |m.relocations|
                && Written(payload, before, base, m.bytes) && Written(relocations, relocsBefore, relocationBase, m.relocations)
      ensures status == Success || status == BufferTooSmall || status == InvalidNetworkResponse
    {
      hide Run; hide Step; hide Written;
      payloadLength, relocationCount := 0, 0;
      var frames := initial;
      var steps := 0;
      ghost var cur := start;
      while |frames| != 0
        invariant Fits(L) && values == old(values)
        invariant MachineOk(L, cur) && cur.frames == frames && cur.cursor == cursor
        invariant |cur.bytes| == payloadLength <= capacity
        invariant |cur.relocations| == relocationCount <= relocationCapacity
        invariant steps <= stepLimit
        invariant Run(L, values, cur, stepLimit - steps) == Run(L, values, start, stepLimit)
        invariant Written(payload, before, base, cur.bytes)
        invariant Written(relocations, relocsBefore, relocationBase, cur.relocations)
        decreases stepLimit - steps
      {
        RunTurn(L, s, values, cur, stepLimit - steps);
        steps := steps + 1;
        if steps > stepLimit {
          return InvalidNetworkResponse, payloadLength, relocationCount;
        }
        ghost var next := Step(L, values, cur);
        status, frames, payloadLength, relocationCount :=
          Turn(L, frames, payload, base, capacity, payloadLength,
               relocations, relocationBase, relocationCapacity, relocationCount, cur, before, relocsBefore);
        if status != Success {
          return;
        }
        cur := next.m;
      }
      RunEnd(L, values, cur, stepLimit - steps);
      visits := cur.visits;
      status := Success;
    }

    /** Run one occurrence, writing to the buffers that are present. */
    method ExecuteOccurrence(L: Layout, ghost s: Shape, payload: array?<byte>, base: nat, capacity: nat,
                             relocations: array?<Relocation>, relocationBase: nat, relocationCapacity: nat)
      returns (status: Status, payloadLength: nat, relocationCount: nat)
      requires Fits(L) && WellFormed(L, s)
      requires capacity <= SIZE_MAX
      requires payload != null ==> base + capacity <= payload.Length
      requires relocations != null ==> relocationBase + relocationCapacity <= relocations.Length
      modifies this`cursor, this`visits, payload, relocations
      ensures Fits(L)
      ensures var r := Run(L, values, Start(L, old(State())), stepLimit);
              status == Success <==>
                r.Done? && |r.m.bytes| <= capacity && |r.m.relocations| <= relocationCapacity
      ensures status == Success ==>
                var m := Run(L, values, Start(L, old(State())), stepLimit).m;
                && cursor == m.cursor && visits == m.visits
                && payloadLength == |m.bytes| && relocationCount == |m.relocations|
                && Written(payload, if payload == null then [] else old(payload[..]), base, m.bytes)
                && Written(relocations, if relocations == null then [] else old(relocations[..]),
                           relocationBase, m.relocations)
      ensures status == Success || status == BufferTooSmall || status == InvalidNetworkResponse
    {
      assert RowIndexed(L, 0);
      var firstElement := L.elements[0].firstChild;
      if |L.callables| != 0 {
        assert RowIndexed(L, L.callables[0].elementIndex);
        firstElement := L.elements[L.callables[0].elementIndex].firstChild;
      }
      var frames: seq<Frame> := [];
      if firstElement != NO_INDEX {
        frames := [Frame(firstElement, firstElement, 1)];
      }
      ghost var before := if payload == null then [] else payload[..];
      ghost var relocsBefore := if relocations == null then [] else relocations[..];
      status, payloadLength, relocationCount :=
        Execute(L, s, frames, payload, base, capacity, relocations, relocationBase, relocationCapacity,
                Start(L, State()), before, relocsBefore);
    }

    /** The next occurrence continues the run of the first i. */
    lemma NextOccurrence(L: Layout, i: nat)
      requires Fits(L)
      requires Occurrences(L, values, i, stepLimit).Done?
      requires var m := Occurrences(L, values, i, stepLimit).m; m.cursor == cursor && m.visits == visits
      ensures MachineOk(L, State())
      ensures Run(L, values, Start(L, State()), stepLimit) == Occurrences(L, values, i + 1, stepLimit)
    {
      hide Run;
    }

    /** First pass: how much each occurrence writes, without writing it. */
    method Measure(L: Layout, ghost s: Shape, occurrences: nat)
      returns (status: Status, lengths: seq<nat>, counts: seq<nat>)
      requires Fits(L) && WellFormed(L, s)
      modifies this`cursor, this`visits
      ensures Fits(L)
      ensures var r := Occurrences(L, values, occurrences, stepLimit);
              status == Success <==> r.Done? && AllUsed(values, r.m.cursor)
      ensures status == Success ==>
                && |lengths| == |counts| == occurrences
                && Planned(L, values, stepLimit, occurrences, lengths, counts)
                && AllUsed(values, cursor)
      // whatever the layout calls, the visits made settle every band and every row
      ensures status == Success ==> Balanced(L, s, occurrences, values, visits)
      ensures NoBackwardCall(L) && Balanced(L, s, occurrences, values, demand) ==>
                && (status == Success || Occurrences(L, values, occurrences, stepLimit).LimitHit?)
                && (status == Success ==> forall e: nat :: 1 <= e < |L.elements| ==> visits[e] == demand[e])
    {
      hide Run; hide Start; hide Balanced; hide RowOk; hide PairOk;
      lengths, counts := [], [];
      cursor := seq(|values|, _ => 0);
      visits := seq(|L.elements|, _ => 0);
      if NoBackwardCall(L) && Balanced(L, s, occurrences, values, demand) {
        RowsMatchColumns(L, s, values, occurrences, demand, stepLimit);
      }
      for i := 0 to occurrences
        invariant Fits(L) && |lengths| == |counts| == i
        invariant Occurrences(L, values, i, stepLimit).Done?
        invariant var m := Occurrences(L, values, i, stepLimit).m; m.cursor == cursor && m.visits == visits
        invariant Planned(L, values, stepLimit, i, lengths, counts)
      {
        NextOccurrence(L, i);
        var length, count;
        status, length, count := ExecuteOccurrence(L, s, null, 0, SIZE_MAX, null, 0, SIZE_MAX);
        if Occurrences(L, values, i + 1, stepLimit).Done? {
          PayloadSound(L, s, values, i + 1, stepLimit);
        }
        if status != Success {
          if Occurrences(L, values, occurrences, stepLimit).Done? {
            OccurrencesPrefix(L, values, occurrences, i + 1, stepLimit);
          }
          return;
        }
        lengths, counts := lengths + [length], counts + [count];
      }
      for b := 0 to |values|
        invariant forall k :: 0 <= k < b ==> cursor[k] == |values[k]|
      {
        if cursor[b] != |values[b]| {
          return InvalidNetworkResponse, lengths, counts;
        }
      }
      MeasuredBalances(L, s, values, occurrences, stepLimit);
      status := Success;
    }

    /** Write occurrence i into its slices. */
    method EmitOne(L: Layout, ghost s: Shape, i: nat, payloadOffsets: seq<nat>, payloadLengths: seq<nat>,
                   relocationOffsets: seq<nat>, relocationCounts: seq<nat>,
                   payload: array<byte>, payloadCapacity: nat, relocations: array<Relocation>, relocationCapacity: nat)
      returns (status: Status)
      requires Fits(L) && WellFormed(L, s)
      requires i < |payloadOffsets| == |payloadLengths| == |relocationOffsets| == |relocationCounts|
      requires payloadCapacity <= payload.Length && payloadCapacity <= SIZE_MAX && relocationCapacity <= relocations.Length
      requires Occurrences(L, values, i, stepLimit).Done?
      requires var m := Occurrences(L, values, i, stepLimit).m; m.cursor == cursor && m.visits == visits
      modifies this`cursor, this`visits, payload, relocations
      ensures Fits(L)
      ensures status == Success <==>
                Emittable(L, values, stepLimit, i, payloadOffsets, payloadLengths, relocationOffsets, relocationCounts,
                          payloadCapacity, relocationCapacity)
      ensures status == Success ==>
                && Occurrences(L, values, i + 1, stepLimit).Done?
                && var m := Occurrences(L, values, i + 1, stepLimit).m;
                && m.cursor == cursor && m.visits == visits
                && Holds(payload[..], old(payload[..]), payloadOffsets[i], m.bytes)
                && Holds(relocations[..], old(relocations[..]), relocationOffsets[i],
                         Shifted(m.relocations, payloadOffsets[i]))
    {
      hide Run; hide Start; hide RowOk; hide PairOk;
      NextOccurrence(L, i);
      if payloadOffsets[i] > payloadCapacity ||
         payloadLengths[i] > payloadCapacity - payloadOffsets[i] ||
         relocationOffsets[i] > relocationCapacity ||
         relocationCounts[i] > relocationCapacity - relocationOffsets[i] {
        return BufferTooSmall;
      }
      ghost var relocsBefore := relocations[..];
      var written, relocationWritten;
      status, written, relocationWritten :=
        ExecuteOccurrence(L, s, payload, payloadOffsets[i], payloadLengths[i],
                          relocations, relocationOffsets[i], relocationCounts[i]);
      if status != Success {
        return;
      }
      if written != payloadLengths[i] || relocationWritten != relocationCounts[i] {
        return InvalidNetworkResponse;
      }
      ghost var m := Occurrences(L, values, i + 1, stepLimit).m;
      ShiftRelocations(relocations, relocationOffsets[i], relocationWritten, payloadOffsets[i], relocsBefore, m.relocations);
      status := Success;
    }

    /** Second pass: write every occurrence into its slices. */
    method Emit(L: Layout, ghost s: Shape, occurrences: nat, payloadOffsets: seq<nat>, payloadLengths: seq<nat>,
                relocationOffsets: seq<nat>, relocationCounts: seq<nat>,
                payload: array<byte>, payloadCapacity: nat, relocations: array<Relocation>, relocationCapacity: nat)
      returns (status: Status)
      requires Fits(L) && WellFormed(L, s)
      requires occurrences == |payloadOffsets| == |payloadLengths| == |relocationOffsets| == |relocationCounts|
      requires payloadCapacity <= payload.Length && payloadCapacity <= SIZE_MAX && relocationCapacity <= relocations.Length
      modifies this`cursor, this`visits, payload, relocations
      ensures Fits(L)
      // it succeeds exactly when the plan is the measured one, the slices fit and the bands come out even
      ensures status == Success <==>
                && (forall i: nat :: i < occurrences ==>
                      Emittable(L, values, stepLimit, i, payloadOffsets, payloadLengths, relocationOffsets, relocationCounts,
                                payloadCapacity, relocationCapacity))
                && Occurrences(L, values, occurrences, stepLimit).Done?
                && AllUsed(values, Occurrences(L, values, occurrences, stepLimit).m.cursor)
      // every slice then holds exactly what its occurrence produced
      ensures status == Success && Apart(payloadOffsets, payloadLengths, occurrences) ==>
                Filled(payload[..], payloadOffsets, payloadLengths, occurrences,
                       AllPayloads(L, values, stepLimit, occurrences))
      ensures status == Success && Apart(relocationOffsets, relocationCounts, occurrences) ==>
                Filled(relocations[..], relocationOffsets, relocationCounts, occurrences,
                       AllRelocations(L, values, stepLimit, payloadOffsets, occurrences))
      // and nothing in front of the slices is touched
      ensures status == Success ==> FrontKept(payload[..], old(payload[..]), payloadOffsets, occurrences)
      ensures status == Success ==> FrontKept(relocations[..], old(relocations[..]), relocationOffsets, occurrences)
    {
      hide Run; hide Start; hide RowOk; hide PairOk; hide SliceIs; hide Apart; hide FrontKept; hide Holds;
      NothingPut(payload[..], payloadOffsets);
      NothingPut(relocations[..], relocationOffsets);
      cursor := seq(|values|, _ => 0);
      visits := seq(|L.elements|, _ => 0);
      for i := 0 to occurrences
        invariant Fits(L)
        invariant Occurrences(L, values, i, stepLimit).Done?
        invariant var m := Occurrences(L, values, i, stepLimit).m; m.cursor == cursor && m.visits == visits
        invariant forall k: nat :: k < i ==>
          Emittable(L, values, stepLimit, k, payloadOffsets, payloadLengths, relocationOffsets, relocationCounts,
                    payloadCapacity, relocationCapacity)
        invariant Apart(payloadOffsets, payloadLengths, occurrences) ==>
          Filled(payload[..], payloadOffsets, payloadLengths, i, AllPayloads(L, values, stepLimit, i))
        invariant Apart(relocationOffsets, relocationCounts, occurrences) ==>
          Filled(relocations[..], relocationOffsets, relocationCounts, i,
                 AllRelocations(L, values, stepLimit, payloadOffsets, i))
        invariant FrontKept(payload[..], old(payload[..]), payloadOffsets, i)
        invariant FrontKept(relocations[..], old(relocations[..]), relocationOffsets, i)
      {
        ghost var payloadBefore, relocationsBefore := payload[..], relocations[..];
        status := EmitOne(L, s, i, payloadOffsets, payloadLengths, relocationOffsets, relocationCounts,
                          payload, payloadCapacity, relocations, relocationCapacity);
        if status != Success {
          return;
        }
        ghost var m := Occurrences(L, values, i + 1, stepLimit).m;
        FrontStays(payload[..], payloadBefore, old(payload[..]), payloadOffsets, i, m.bytes);
        FrontStays(relocations[..], relocationsBefore, old(relocations[..]), relocationOffsets, i,
                   Shifted(m.relocations, payloadOffsets[i]));
        if Apart(payloadOffsets, payloadLengths, occurrences) {
          ApartPrefix(payloadOffsets, payloadLengths, occurrences, i + 1);
          FillNext(payload[..], payloadBefore, payloadOffsets, payloadLengths, i,
                   AllPayloads(L, values, stepLimit, i), m.bytes);
        }
        if Apart(relocationOffsets, relocationCounts, occurrences) {
          ApartPrefix(relocationOffsets, relocationCounts, occurrences, i + 1);
          FillNext(relocations[..], relocationsBefore, relocationOffsets, relocationCounts, i,
                   AllRelocations(L, values, stepLimit, payloadOffsets, i), Shifted(m.relocations, payloadOffsets[i]));
        }
      }
      for b := 0 to |values|
        invariant forall k :: 0 <= k < b ==> cursor[k] == |values[k]|
      {
        if cursor[b] != |values[b]| {
          return InvalidNetworkResponse;
        }
      }
      status := Success;
    }
  }
}
