// The store of custom attributes, and the two passes over one layout's bands: measure every occurrence,
// reserve its slices at the end of the growing buffers, then emit.
module LayoutStore {
  import opened Common
  import opened LayoutModel
  import opened LayoutMachine
  import opened LayoutFlow
  import opened LayoutTheorem
  import opened LayoutColumns
  import opened LayoutUnique
  import opened LayoutDecode
  import opened LayoutBands
  import opened BandSupply

  //
  // Growing
  //

  /** The first of c, 2c, 4c, ... that reaches `required`, or `required` itself where doubling would leave SIZE_T. */
  function Doubled(c: nat, required: nat): (r: nat)
    requires c > 0
    ensures r >= c && r >= required
    decreases required - c
  {
    if c >= required then c else if c > SIZE_MAX / 2 then required else Doubled(2 * c, required)
  }

  /** The capacity of a buffer after it had to hold `required` elements. */
  function Grown(capacity: nat, required: nat): nat {
    if required <= capacity then capacity else Doubled(if capacity == 0 then 16 else capacity, required)
  }

  lemma {:induction false} DoubledBound(c: nat, required: nat)
    requires 0 < c <= 2 * required + 16
    ensures Doubled(c, required) <= 2 * required + 16
    decreases required - c
  {
    if c < required && c <= SIZE_MAX / 2 { DoubledBound(2 * c, required); }
  }

  /** Growth at most doubles what is needed. */
  lemma GrownBound(capacity: nat, required: nat)
    ensures required <= Grown(capacity, required) && capacity <= Grown(capacity, required)
    ensures required > capacity ==> Grown(capacity, required) <= 2 * required + 16
  {
    if required > capacity { DoubledBound(if capacity == 0 then 16 else capacity, required); }
  }

  lemma {:induction false} DoubledTwice(c: nat, first: nat, second: nat)
    requires c > 0 && first <= second
    ensures Doubled(Doubled(c, first), second) == Doubled(c, second)
    decreases first - c
  {
    if c < first && c <= SIZE_MAX / 2 { DoubledTwice(2 * c, first, second); }
  }

  /** Growing in steps ends with the capacity that growing at once would give. */
  lemma GrownTwice(capacity: nat, first: nat, second: nat)
    requires first <= second
    ensures Grown(Grown(capacity, first), second) == Grown(capacity, second) >= Grown(capacity, first)
  {
    if first > capacity {
      DoubledTwice(if capacity == 0 then 16 else capacity, first, second);
    }
  }

  /** A growing buffer: its capacity, the part in use, and how much one allocation may hold. */
  datatype Space = Space(capacity: nat, used: nat, most: nat)

  /** The buffer can be made to hold `more` elements behind those in use. */
  predicate Room(space: Space, more: nat) {
    var required := space.used + more;
    required <= SIZE_MAX && (required <= space.capacity || Grown(space.capacity, required) <= space.most)
  }

  /** The buffer after taking in `more` elements. */
  function Extended(space: Space, more: nat): Space {
    Space(Grown(space.capacity, space.used + more), space.used + more, space.most)
  }

  /** Room for two pieces one after the other is room for both at once. */
  lemma RoomTwice(space: Space, first: nat, second: nat)
    ensures Room(space, first) && Room(Extended(space, first), second) <==> Room(space, first + second)
    ensures Extended(Extended(space, first), second) == Extended(space, first + second)
  {
    GrownTwice(space.capacity, space.used + first, space.used + first + second);
  }

  /** Twice what is needed is always enough, and less than what is needed never is. */
  lemma RoomBounds(space: Space, more: nat)
    ensures 2 * (space.used + more) + 16 <= space.most <= SIZE_MAX ==> Room(space, more)
    ensures Room(space, more) ==> space.used + more <= space.capacity || space.used + more <= space.most
  {
    GrownBound(space.capacity, space.used + more);
  }

  /** A larger buffer with the used part copied over; `most` is the number of elements an allocation may hold. */
  method GrowBuffer<T(0)>(buffer: array<T>, used: nat, required: nat, most: nat) returns (status: Status, grown: array<T>)
    requires used <= buffer.Length <= SIZE_MAX && required <= SIZE_MAX
    ensures status == Success <==> required <= buffer.Length || Grown(buffer.Length, required) <= most
    ensures status == Success ==>
              && grown.Length == Grown(buffer.Length, required) && grown.Length >= required && grown.Length >= used
              && grown[..used] == buffer[..used] && (grown == buffer || fresh(grown))
    ensures status != Success ==> grown == buffer && status == IntegerOverflow
  {
    if required <= buffer.Length {
      return Success, buffer;
    }
    var newCapacity := if buffer.Length == 0 then 16 else buffer.Length;
    while newCapacity < required
      invariant 0 < newCapacity && Doubled(newCapacity, required) == Grown(buffer.Length, required)
      decreases required - newCapacity
    {
      if newCapacity > SIZE_MAX / 2 {
        newCapacity := required;
        break;
      }
      newCapacity := newCapacity * 2;
    }
    if newCapacity > most {
      return IntegerOverflow, buffer;
    }
    GrownBound(buffer.Length, required);
    grown := new T[newCapacity];
    for i := 0 to used
      invariant grown[..i] == buffer[..i]
    {
      grown[i] := buffer[i];
    }
    status := Success;
  }

  /** Each slice starts where the one before it ends, the first at `start`, and the last ends at `end`. */
  ghost predicate Tiles(offsets: seq<nat>, lengths: seq<nat>, start: nat, end: nat) {
    && |offsets| == |lengths|
    && (forall i :: 0 <= i < |offsets| ==> offsets[i] == EndOf(lengths, i, start))
    && end == EndOf(lengths, |lengths|, start)
  }

  function EndOf(lengths: seq<nat>, n: nat, start: nat): nat
    requires n <= |lengths|
  {
    if n == 0 then start else EndOf(lengths, n - 1, start) + lengths[n - 1]
  }

  lemma EndFirst(lengths: seq<nat>, start: nat)
    ensures EndOf(lengths, 0, start) == start
  {
  }

  lemma EndNext(lengths: seq<nat>, n: nat, start: nat)
    requires n < |lengths|
    ensures EndOf(lengths, n + 1, start) == EndOf(lengths, n, start) + lengths[n]
  {
  }

  lemma PrefixTransitive<T>(a: seq<T>, b: seq<T>, c: seq<T>)
    requires a <= b <= c
    ensures a <= c
  {
  }

  lemma {:induction false} EndsRise(lengths: seq<nat>, i: nat, j: nat, start: nat)
    requires i <= j <= |lengths|
    ensures start <= EndOf(lengths, i, start) <= EndOf(lengths, j, start)
    ensures i < j ==> EndOf(lengths, i, start) + lengths[i] <= EndOf(lengths, j, start)
    decreases j
  {
    if i < j { EndsRise(lengths, i, j - 1, start); }
    if i == j && j > 0 { EndsRise(lengths, i - 1, j - 1, start); }
  }

  /** Tiling slices do not overlap, start behind what was there, and fit. */
  lemma TilesApart(offsets: seq<nat>, lengths: seq<nat>, start: nat, end: nat)
    requires Tiles(offsets, lengths, start, end)
    ensures Apart(offsets, lengths, |offsets|) && Behind(offsets, |offsets|, start)
    ensures forall i: nat :: i < |offsets| ==> InBuffer(offsets[i], lengths[i], end)
    ensures start <= end
  {
    EndsRise(lengths, 0, |lengths|, start);
    forall i: nat | i < |offsets|
      ensures InBuffer(offsets[i], lengths[i], end) && start <= offsets[i]
    {
      EndsRise(lengths, i, |lengths|, start);
    }
    forall i, j | 0 <= i < j < |offsets|
      ensures offsets[i] + lengths[i] <= offsets[j]
    {
      EndsRise(lengths, i, j, start);
    }
  }

  class CustomAttributeStore {
    /** How many bytes and relocations one allocation may hold. */
    const mostBytes: nat
    const mostRelocations: nat
    var payload: array<byte>
    var payloadLength: nat
    var relocations: array<Relocation>
    var relocationCount: nat

    constructor (bytes: nat, entries: nat)
      requires bytes <= SIZE_MAX && entries <= SIZE_MAX
      ensures Valid() && payloadLength == 0 && relocationCount == 0 && fresh(payload) && fresh(relocations)
      ensures mostBytes == bytes && mostRelocations == entries
    {
      mostBytes, mostRelocations := bytes, entries;
      payload, payloadLength := new byte[0], 0;
      relocations, relocationCount := new Relocation[0], 0;
    }

    ghost predicate Valid()
      reads this
    {
      && payloadLength <= payload.Length <= SIZE_MAX && relocationCount <= relocations.Length <= SIZE_MAX
      && mostBytes <= SIZE_MAX && mostRelocations <= SIZE_MAX
    }

    ghost function Bytes(): seq<byte>
      reads this, payload
      requires Valid()
    {
      payload[..payloadLength]
    }

    ghost function Entries(): seq<Relocation>
      reads this, relocations
      requires Valid()
    {
      relocations[..relocationCount]
    }

    function ByteSpace(): Space
      reads this, payload
    {
      Space(payload.Length, payloadLength, mostBytes)
    }

    function EntrySpace(): Space
      reads this, relocations
    {
      Space(relocations.Length, relocationCount, mostRelocations)
    }

    /** Room for `length` more bytes behind those in use. */
    method ReservePayload(length: nat) returns (status: Status, offset: nat)
      requires Valid()
      modifies this
      ensures Valid() && relocations == old(relocations) && relocationCount == old(relocationCount)
      ensures payload == old(payload) || fresh(payload)
      ensures status == Success <==> Room(old(ByteSpace()), length)
      ensures status == Success ==>
                offset == old(payloadLength) && ByteSpace() == Extended(old(ByteSpace()), length) && old(Bytes()) <= Bytes()
      ensures status != Success ==> status == IntegerOverflow && payloadLength == old(payloadLength) && payload == old(payload)
    {
      offset := 0;
      if length > SIZE_MAX - payloadLength {
        return IntegerOverflow, offset;
      }
      var grown;
      status, grown := GrowBuffer(payload, payloadLength, payloadLength + length, mostBytes);
      if status != Success {
        return;
      }
      offset := payloadLength;
      payload, payloadLength := grown, payloadLength + length;
    }

    method ReserveRelocations(count: nat) returns (status: Status, offset: nat)
      requires Valid()
      modifies this
      ensures Valid() && payload == old(payload) && payloadLength == old(payloadLength)
      ensures relocations == old(relocations) || fresh(relocations)
      ensures status == Success <==> Room(old(EntrySpace()), count)
      ensures status == Success ==>
                offset == old(relocationCount) && EntrySpace() == Extended(old(EntrySpace()), count) && old(Entries()) <= Entries()
      ensures status != Success ==>
                status == IntegerOverflow && relocationCount == old(relocationCount) && relocations == old(relocations)
    {
      offset := 0;
      if count > SIZE_MAX - relocationCount {
        return IntegerOverflow, offset;
      }
      var grown;
      status, grown := GrowBuffer(relocations, relocationCount, relocationCount + count, mostRelocations);
      if status != Success {
        return;
      }
      offset := relocationCount;
      relocations, relocationCount := grown, relocationCount + count;
    }

    /** A slice of each buffer for one occurrence. */
    method ReserveSlices(length: nat, count: nat) returns (status: Status, offset: nat, relocationOffset: nat)
      requires Valid()
      modifies this
      ensures Valid() && (payload == old(payload) || fresh(payload)) && (relocations == old(relocations) || fresh(relocations))
      ensures status == Success <==> Room(old(ByteSpace()), length) && Room(old(EntrySpace()), count)
      ensures status == Success ==>
                && offset == old(payloadLength) && ByteSpace() == Extended(old(ByteSpace()), length) && old(Bytes()) <= Bytes()
                && relocationOffset == old(relocationCount) && EntrySpace() == Extended(old(EntrySpace()), count)
                && old(Entries()) <= Entries()
      ensures status == Success || status == IntegerOverflow
    {
      relocationOffset := 0;
      status, offset := ReservePayload(length);
      if status == Success {
        status, relocationOffset := ReserveRelocations(count);
      }
    }

    /** A slice of each buffer for every occurrence. */
    method ReserveAll(lengths: seq<nat>, counts: seq<nat>) returns (status: Status, offsets: seq<nat>, relocationOffsets: seq<nat>)
      requires Valid() && |lengths| == |counts|
      modifies this
      ensures Valid() && (payload == old(payload) || fresh(payload)) && (relocations == old(relocations) || fresh(relocations))
      ensures status == Success <==>
                Room(old(ByteSpace()), EndOf(lengths, |lengths|, 0)) && Room(old(EntrySpace()), EndOf(counts, |counts|, 0))
      ensures status == Success ==>
                && Tiles(offsets, lengths, old(payloadLength), payloadLength)
                && Tiles(relocationOffsets, counts, old(relocationCount), relocationCount)
                && old(Bytes()) <= Bytes() && old(Entries()) <= Entries()
      ensures status == Success || status == IntegerOverflow
    {
      hide EndOf; hide CustomAttributeStore.Bytes; hide CustomAttributeStore.Entries; hide Room; hide Grown;
      offsets, relocationOffsets := [], [];
      EndFirst(lengths, 0);
      EndFirst(counts, 0);
      ghost var byteSpace, entrySpace := ByteSpace(), EntrySpace();
      NothingNeeded(byteSpace);
      NothingNeeded(entrySpace);
      for i := 0 to |lengths|
        invariant Valid() && (payload == old(payload) || fresh(payload)) && (relocations == old(relocations) || fresh(relocations))
        invariant |offsets| == |relocationOffsets| == i
        invariant Room(byteSpace, EndOf(lengths, i, 0)) && ByteSpace() == Extended(byteSpace, EndOf(lengths, i, 0))
        invariant Room(entrySpace, EndOf(counts, i, 0)) && EntrySpace() == Extended(entrySpace, EndOf(counts, i, 0))
        invariant forall k :: 0 <= k < i ==> offsets[k] == old(payloadLength) + EndOf(lengths, k, 0)
        invariant forall k :: 0 <= k < i ==> relocationOffsets[k] == old(relocationCount) + EndOf(counts, k, 0)
        invariant old(Bytes()) <= Bytes() && old(Entries()) <= Entries()
      {
        ghost var bytes, entries := Bytes(), Entries();
        var offset, relocationOffset;
        RoomNext(byteSpace, lengths, i);
        RoomNext(entrySpace, counts, i);
        status, offset, relocationOffset := ReserveSlices(lengths[i], counts[i]);
        if status != Success {
          return;
        }
        PrefixTransitive(old(Bytes()), bytes, Bytes());
        PrefixTransitive(old(Entries()), entries, Entries());
        offsets, relocationOffsets := offsets + [offset], relocationOffsets + [relocationOffset];
      }
      TilesFrom(offsets, lengths, old(payloadLength));
      TilesFrom(relocationOffsets, counts, old(relocationCount));
      status := Success;
    }
  }

  lemma NothingNeeded(space: Space)
    requires space.used <= space.capacity <= SIZE_MAX
    ensures Room(space, 0) && Extended(space, 0) == space
  {
  }

  /** The next piece fits exactly when all pieces up to it do; with all of them, each of them does. */
  lemma RoomNext(space: Space, lengths: seq<nat>, i: nat)
    requires i < |lengths| && Room(space, EndOf(lengths, i, 0))
    ensures var done := Extended(space, EndOf(lengths, i, 0));
      && (Room(done, lengths[i]) <==> Room(space, EndOf(lengths, i + 1, 0)))
      && Extended(done, lengths[i]) == Extended(space, EndOf(lengths, i + 1, 0))
    ensures Room(space, EndOf(lengths, |lengths|, 0)) ==> Room(space, EndOf(lengths, i + 1, 0))
  {
    hide Room; hide Extended; hide EndOf;
    EndNext(lengths, i, 0);
    RoomTwice(space, EndOf(lengths, i, 0), lengths[i]);
    EndsRise(lengths, i + 1, |lengths|, 0);
    RoomTwice(space, EndOf(lengths, i + 1, 0), EndOf(lengths, |lengths|, 0) - EndOf(lengths, i + 1, 0));
  }

  lemma {:induction false} EndMoves(lengths: seq<nat>, n: nat, start: nat)
    requires n <= |lengths|
    ensures EndOf(lengths, n, start) == start + EndOf(lengths, n, 0)
  {
    if n > 0 { EndMoves(lengths, n - 1, start); }
  }

  lemma TilesFrom(offsets: seq<nat>, lengths: seq<nat>, start: nat)
    requires |offsets| == |lengths| && forall k :: 0 <= k < |offsets| ==> offsets[k] == start + EndOf(lengths, k, 0)
    ensures Tiles(offsets, lengths, start, start + EndOf(lengths, |lengths|, 0))
  {
    hide EndOf;
    EndMoves(lengths, |lengths|, start);
    forall k | 0 <= k < |offsets|
      ensures offsets[k] == EndOf(lengths, k, start)
    {
      EndMoves(lengths, k, start);
    }
  }

  /** The lengths the first pass measured are those of the payloads the second pass writes. */
  lemma PlanIsEmittable(L: Layout, values: seq<seq<int>>, limit: nat, n: nat, lengths: seq<nat>, counts: seq<nat>,
                        offsets: seq<nat>, relocationOffsets: seq<nat>, start: nat, end: nat, relocationStart: nat, relocationEnd: nat)
    requires Indexed(L) && |values| == |L.bands| && |lengths| == |counts| == n && Planned(L, values, limit, n, lengths, counts)
    requires Tiles(offsets, lengths, start, end) && Tiles(relocationOffsets, counts, relocationStart, relocationEnd)
    ensures forall i: nat :: i < n ==> Emittable(L, values, limit, i, offsets, lengths, relocationOffsets, counts, end, relocationEnd)
  {
    hide Produces; hide InBuffer;
    TilesApart(offsets, lengths, start, end);
    TilesApart(relocationOffsets, counts, relocationStart, relocationEnd);
  }

  /** What the store gained: slices that tile the new part and hold the occurrences' payloads and relocations. */
  ghost predicate Stored(L: Layout, values: seq<seq<int>>, limit: nat, n: nat, before: nat, relocationsBefore: nat,
                         bytes: seq<byte>, entries: seq<Relocation>)
    requires Indexed(L) && |values| == |L.bands|
  {
    exists offsets: seq<nat>, lengths: seq<nat>, relocationOffsets: seq<nat>, counts: seq<nat> ::
      StoredAt(L, values, limit, n, before, relocationsBefore, bytes, entries, offsets, lengths, relocationOffsets, counts)
  }

  ghost predicate StoredAt(L: Layout, values: seq<seq<int>>, limit: nat, n: nat, before: nat, relocationsBefore: nat,
                           bytes: seq<byte>, entries: seq<Relocation>, offsets: seq<nat>, lengths: seq<nat>,
                           relocationOffsets: seq<nat>, counts: seq<nat>)
    requires Indexed(L) && |values| == |L.bands|
  {
    && |offsets| == |lengths| == |relocationOffsets| == |counts| == n
    && Tiles(offsets, lengths, before, |bytes|) && Tiles(relocationOffsets, counts, relocationsBefore, |entries|)
    && Filled(bytes, offsets, lengths, n, AllPayloads(L, values, limit, n))
    && Filled(entries, relocationOffsets, counts, n, AllRelocations(L, values, limit, offsets, n))
  }

  lemma FilledInside<T(!new)>(buffer: seq<T>, used: nat, offsets: seq<nat>, lengths: seq<nat>, n: nat, data: seq<seq<T>>)
    requires used <= |buffer| && Filled(buffer, offsets, lengths, n, data)
    requires forall i: nat :: i < n ==> InBuffer(offsets[i], lengths[i], used)
    ensures Filled(buffer[..used], offsets, lengths, n, data)
  {
    forall i: nat | i < n
      ensures SliceIs(buffer[..used], offsets[i], lengths[i], data[i])
    {
      assert SliceIs(buffer, offsets[i], lengths[i], data[i]) && InBuffer(offsets[i], lengths[i], used);
      assert buffer[..used][offsets[i]..offsets[i] + lengths[i]] == buffer[offsets[i]..offsets[i] + lengths[i]];
    }
  }

  /** The bytes and the relocations the first n occurrences write. */
  ghost function BytesNeeded(L: Layout, values: seq<seq<int>>, limit: nat, n: nat): nat
    requires Indexed(L) && |values| == |L.bands|
  {
    if n == 0 then 0 else BytesNeeded(L, values, limit, n - 1) + |PayloadOf(L, values, limit, n - 1)|
  }

  ghost function EntriesNeeded(L: Layout, values: seq<seq<int>>, limit: nat, n: nat): nat
    requires Indexed(L) && |values| == |L.bands|
  {
    if n == 0 then 0 else EntriesNeeded(L, values, limit, n - 1) + |RelocationsOf(L, values, limit, n - 1, 0)|
  }

  lemma {:induction false} PlanNeeds(L: Layout, values: seq<seq<int>>, limit: nat, n: nat, lengths: seq<nat>, counts: seq<nat>, k: nat)
    requires Indexed(L) && |values| == |L.bands| && Planned(L, values, limit, n, lengths, counts) && k <= n
    ensures EndOf(lengths, k, 0) == BytesNeeded(L, values, limit, k) && EndOf(counts, k, 0) == EntriesNeeded(L, values, limit, k)
  {
    hide Occurrences;
    if k > 0 {
      PlanNeeds(L, values, limit, n, lengths, counts, k - 1);
      assert Produces(L, values, limit, k - 1, lengths[k - 1], counts[k - 1]);
    }
  }

  /** The n occurrences run and use the bands up. */
  ghost predicate Measurable(L: Layout, values: seq<seq<int>>, limit: nat, n: nat)
    requires Indexed(L) && |values| == |L.bands|
  {
    var r := Occurrences(L, values, n, limit);
    r.Done? && AllUsed(values, r.m.cursor)
  }

  /** They do, and the buffers can take in what they write. */
  ghost predicate Storable(L: Layout, values: seq<seq<int>>, limit: nat, n: nat, bytes: Space, entries: Space)
    requires Indexed(L) && |values| == |L.bands|
  {
    && Measurable(L, values, limit, n)
    && Room(bytes, BytesNeeded(L, values, limit, n)) && Room(entries, EntriesNeeded(L, values, limit, n))
  }

  /**
   * Both passes over bands already decoded: they succeed exactly when the occurrences run, use the bands up
   * and find room. The new slices tile the space behind what the store held, which is unchanged.
   */
  method StoreOccurrences(L: Layout, ghost s: Shape, bands: AttributeValueBands, occurrences: nat, store: CustomAttributeStore)
    returns (status: Status)
    requires bands.Fits(L) && WellFormed(L, s) && store.Valid()
    modifies bands`cursor, bands`visits, store, store.payload, store.relocations
    ensures bands.Fits(L) && store.Valid()
    ensures status == Success <==>
              Storable(L, bands.values, bands.stepLimit, occurrences, old(store.ByteSpace()), old(store.EntrySpace()))
    ensures NoBackwardCall(L) && Balanced(L, s, occurrences, bands.values, bands.demand) ==>
              || Measurable(L, bands.values, bands.stepLimit, occurrences)
              || Occurrences(L, bands.values, occurrences, bands.stepLimit).LimitHit?
    ensures status == Success ==>
              && old(store.Bytes()) <= store.Bytes() && old(store.Entries()) <= store.Entries()
              && Stored(L, bands.values, bands.stepLimit, occurrences, old(store.payloadLength), old(store.relocationCount),
                        store.Bytes(), store.Entries())
  {
    hide Balanced; hide Occurrences; hide Planned; hide Tiles; hide Emittable; hide AllPayloads; hide AllRelocations; hide Filled;
    hide FrontKept; hide AllUsed; hide Behind; hide Apart; hide Room; hide BytesNeeded; hide EntriesNeeded; hide EndOf;
    FitsIndexed(bands, L);
    ghost var limit := bands.stepLimit;
    ghost var bytes, entries := store.Bytes(), store.Entries();
    var lengths, counts;
    status, lengths, counts := bands.Measure(L, s, occurrences);
    if status != Success {
      return;
    }
    PlanNeeds(L, bands.values, limit, occurrences, lengths, counts, occurrences);
    ghost var plan := bands.values;
    var offsets, relocationOffsets;
    status, offsets, relocationOffsets := store.ReserveAll(lengths, counts);
    if status != Success {
      return;
    }
    TileSizes(offsets, lengths, |bytes|, store.payloadLength);
    TileSizes(relocationOffsets, counts, |entries|, store.relocationCount);
    PlanIsEmittable(L, bands.values, limit, occurrences, lengths, counts, offsets, relocationOffsets,
                    |bytes|, store.payloadLength, |entries|, store.relocationCount);
    ghost var payload0, relocations0 := store.payload[..], store.relocations[..];
    status := bands.Emit(L, s, occurrences, offsets, lengths, relocationOffsets, counts,
                         store.payload, store.payloadLength, store.relocations, store.relocationCount);
    TilesApart(offsets, lengths, |bytes|, store.payloadLength);
    TilesApart(relocationOffsets, counts, |entries|, store.relocationCount);
    FrontStands(store.payload[..], payload0, offsets, occurrences, |bytes|, store.payloadLength, bytes);
    FrontStands(store.relocations[..], relocations0, relocationOffsets, occurrences, |entries|, store.relocationCount, entries);
    FilledInside(store.payload[..], store.payloadLength, offsets, lengths, occurrences, AllPayloads(L, plan, limit, occurrences));
    FilledInside(store.relocations[..], store.relocationCount, relocationOffsets, counts, occurrences,
                 AllRelocations(L, plan, limit, offsets, occurrences));
    assert StoredAt(L, plan, limit, occurrences, |bytes|, |entries|, store.Bytes(), store.Entries(), offsets, lengths,
      relocationOffsets, counts);
  }

  lemma TileSizes(offsets: seq<nat>, lengths: seq<nat>, start: nat, end: nat)
    requires Tiles(offsets, lengths, start, end)
    ensures |offsets| == |lengths|
  {
  }

  /** What stood in front of the slices still stands there. */
  lemma FrontStands<T(!new)>(after: seq<T>, before: seq<T>, offsets: seq<nat>, n: nat, start: nat, used: nat, front: seq<T>)
    requires FrontKept(after, before, offsets, n) && Behind(offsets, n, start)
    requires start == |front| <= used <= |before| && front <= before[..used]
    ensures |after| == |before| && front <= after[..used]
  {
    assert after[..start] == before[..start] == before[..used][..start];
    assert after[..used][..start] == after[..start];
  }

  lemma FitsIndexed(bands: AttributeValueBands, L: Layout)
    requires bands.Fits(L)
    ensures Indexed(L) && |bands.values| == |L.bands|
  {
  }

  /** The integers of `rest` start with columns whose occurrences can be stored. */
  ghost predicate Decodable(L: Layout, s: Shape, occurrences: nat, calls: seq<nat>, rest: seq<int>, limit: nat,
                            bytes: Space, entries: Space)
    requires WellFormed(L, s) && |calls| == L.backwardCallables
  {
    exists values, demand ::
      && Columned(L, s, occurrences, DeclaredOf(L, calls, |L.callables|), rest, values, demand)
      && Storable(L, values, limit, occurrences, bytes, entries)
  }

  /** The columns being unique, they decide. */
  lemma DecodableIs(L: Layout, s: Shape, occurrences: nat, calls: seq<nat>, rest: seq<int>, limit: nat, bytes: Space, entries: Space,
                    values: seq<seq<int>>, demand: seq<nat>)
    requires WellFormed(L, s) && |calls| == L.backwardCallables
    requires Columned(L, s, occurrences, DeclaredOf(L, calls, |L.callables|), rest, values, demand)
    ensures Indexed(L) && |values| == |L.bands|
    ensures Decodable(L, s, occurrences, calls, rest, limit, bytes, entries) <==> Storable(L, values, limit, occurrences, bytes, entries)
  {
    hide Storable; hide DeclaredOf; hide RowOk; hide PairOk; hide Laid; hide BandBalanced; hide RowBalancedWith;
    var declared := DeclaredOf(L, calls, |L.callables|);
    if Decodable(L, s, occurrences, calls, rest, limit, bytes, entries) {
      var values', demand' :| Columned(L, s, occurrences, declared, rest, values', demand')
                              && Storable(L, values', limit, occurrences, bytes, entries);
      ColumnsUnique(L, s, occurrences, declared, rest, values, demand, values', demand');
    }
  }

  /**
   * One attribute definition from its bands to the store: it succeeds exactly when the call counts match,
   * the supply goes on with columns, their occurrences run and use the columns up, and the buffers have room.
   * Without backward calls the columns always suit the occurrences, up to the step and frame limits.
   */
  method DecodeAttribute(L: Layout, ghost s: Shape, occurrences: nat, backwardCalls: seq<nat>, source: BandSource,
                         store: CustomAttributeStore)
    returns (status: Status, bands: AttributeValueBands)
    requires WellFormed(L, s) && source.Valid() && store.Valid()
    modifies source, store, store.payload, store.relocations
    ensures fresh(bands) && bands.stepLimit == MAX_STEPS && source.Valid() && store.Valid()
    ensures status == Success <==>
              && |backwardCalls| == L.backwardCallables
              && Decodable(L, s, occurrences, backwardCalls, source.supply[old(source.position)..], bands.stepLimit,
                           old(store.ByteSpace()), old(store.EntrySpace()))
    ensures NoBackwardCall(L) && |backwardCalls| == L.backwardCallables
            && Spelt(L, s, occurrences, backwardCalls, source.supply[old(source.position)..]) ==>
              && bands.Fits(L)
              && (|| Measurable(L, bands.values, bands.stepLimit, occurrences)
                  || Occurrences(L, bands.values, occurrences, bands.stepLimit).LimitHit?)
    ensures status == Success ==>
              && bands.Fits(L)
              && source.delivered == old(source.delivered) + Deliveries(L, bands.values, |bands.values|)
              && old(store.Bytes()) <= store.Bytes() && old(store.Entries()) <= store.Entries()
              && Stored(L, bands.values, bands.stepLimit, occurrences, old(store.payloadLength), old(store.relocationCount),
                        store.Bytes(), store.Entries())
  {
    hide WellFormed; hide Balanced; hide Columned; hide Occurrences; hide Deliveries; hide Stored; hide Laid; hide Room;
    hide Measurable; hide Storable; hide Decodable; hide Flatten; hide DeclaredOf;
    bands := new AttributeValueBands();
    ghost var rest := source.supply[source.position..];
    status := bands.Decode(L, s, occurrences, backwardCalls, source);
    if status != Success {
      if |backwardCalls| == L.backwardCallables {
        NotDecodable(L, s, occurrences, backwardCalls, rest, bands.stepLimit, store.ByteSpace(), store.EntrySpace());
      }
      return;
    }
    DecodableIs(L, s, occurrences, backwardCalls, rest, bands.stepLimit, store.ByteSpace(), store.EntrySpace(),
      bands.values, bands.demand);
    status := StoreOccurrences(L, s, bands, occurrences, store);
  }

  lemma NotDecodable(L: Layout, s: Shape, occurrences: nat, calls: seq<nat>, rest: seq<int>, limit: nat, bytes: Space, entries: Space)
    requires WellFormed(L, s) && |calls| == L.backwardCallables && !Spelt(L, s, occurrences, calls, rest)
    ensures !Decodable(L, s, occurrences, calls, rest, limit, bytes, entries)
  {
    hide Columned; hide Storable; hide DeclaredOf; hide RowOk; hide PairOk;
  }
}
