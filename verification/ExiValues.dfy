// The EXI string tables (Efficient XML Interchange 1.0, section 7.3.3): a table of literals, and a value
// partition whose global slots are a ring over the values added last.
module ExiValues {
  import opened Common
  import opened Arithmetic
  import opened ExiBits

  const NO_QNAME: nat := 0xffff_ffff

  type Text = seq<byte>

  //
  // Literals
  //

  class StringTable {
    const maxEntries: nat
    const textCapacity: nat
    var entries: seq<Text>
    var textLength: nat

    constructor (entryLimit: nat, capacity: nat)
      ensures Valid() && entries == [] && maxEntries == entryLimit && textCapacity == capacity
    {
      maxEntries, textCapacity, entries, textLength := entryLimit, capacity, [], 0;
    }

    /** No text is stored twice, and the texts fill the buffer up to textLength. */
    ghost predicate Valid()
      reads this
    {
      && |entries| <= maxEntries && textLength == TotalLength(entries) <= textCapacity
      && forall i, j :: 0 <= i < j < |entries| ==> entries[i] != entries[j]
    }

    method Find(value: Text) returns (found: bool, index: nat)
      ensures found <==> value in entries
      ensures found ==> index < |entries| && entries[index] == value
    {
      for entryIndex := 0 to |entries|
        invariant forall k :: 0 <= k < entryIndex ==> entries[k] != value
      {
        if entries[entryIndex] == value {
          return true, entryIndex;
        }
      }
      found, index := false, 0;
    }

    /** The index of the text, which is stored unless it was already. */
    method Add(value: Text) returns (status: Status, index: nat)
      requires Valid()
      modifies this
      ensures Valid()
      ensures status == Success <==>
                value in old(entries) || (|old(entries)| < maxEntries && old(textLength) + |value| <= textCapacity)
      ensures status == Success ==> index < |entries| && entries[index] == value
      ensures entries == old(entries) || (status == Success && value !in old(entries) && entries == old(entries) + [value])
      ensures status in {Success, BufferTooSmall}
    {
      hide TotalLength;
      var found;
      found, index := Find(value);
      if found {
        return Success, index;
      }
      if |entries| >= maxEntries || |value| > textCapacity || textLength > textCapacity - |value| {
        return BufferTooSmall, index;
      }
      index := |entries|;
      TotalNext(entries, value);
      entries := entries + [value];
      textLength := textLength + |value|;
      status := Success;
    }
  }

  /** The literals once the text is stored, unless there is no room for it. */
  function Stored(maxEntries: nat, textCapacity: nat, texts: seq<Text>, value: Text): Option<seq<Text>> {
    if value in texts then Some(texts)
    else if |texts| < maxEntries && TotalLength(texts) + |value| <= textCapacity then Some(texts + [value])
    else None
  }

  function TotalLength(texts: seq<Text>): nat {
    if |texts| == 0 then 0 else TotalLength(texts[..|texts| - 1]) + |texts[|texts| - 1]|
  }

  lemma TotalNext(texts: seq<Text>, value: Text)
    ensures TotalLength(texts + [value]) == TotalLength(texts) + |value|
  {
    assert (texts + [value])[..|texts|] == texts;
  }

  //
  // The value partition as a history
  //

  /** Everything that ever entered the partition, oldest first: the owner and the value. */
  type History = seq<(nat, Text)>

  /** Entry i has not been pushed out of the ring. */
  predicate Live(h: History, capacity: nat, i: nat) {
    i < |h| <= i + capacity
  }

  ghost predicate LiveValue(h: History, capacity: nat, value: Text) {
    exists i: nat :: Live(h, capacity, i) && h[i].1 == value
  }

  /** The entries of one owner among the first n. */
  function LocalCount(h: History, qname: nat, n: nat): nat
    requires n <= |h|
  {
    if n == 0 then 0 else LocalCount(h, qname, n - 1) + if h[n - 1].0 == qname then 1 else 0
  }

  /** Entry i is the k-th of its owner. */
  predicate IsLocal(h: History, qname: nat, k: nat, i: nat) {
    i < |h| && h[i].0 == qname && LocalCount(h, qname, i) == k
  }

  lemma {:induction false} LocalCountRises(h: History, qname: nat, a: nat, b: nat)
    requires a <= b <= |h|
    ensures LocalCount(h, qname, a) <= LocalCount(h, qname, b)
    ensures a < b && h[a].0 == qname ==> LocalCount(h, qname, a) < LocalCount(h, qname, b)
    decreases b
  {
    if a < b { LocalCountRises(h, qname, a, b - 1); }
  }

  /** A local number names at most one entry. */
  lemma LocalUnique(h: History, qname: nat, k: nat, i: nat, j: nat)
    requires IsLocal(h, qname, k, i) && IsLocal(h, qname, k, j)
    ensures i == j
  {
    if i < j { LocalCountRises(h, qname, i, j); }
    if j < i { LocalCountRises(h, qname, j, i); }
  }

  lemma {:induction false} LocalCountPrefix(h: History, more: History, qname: nat, n: nat)
    requires n <= |h|
    ensures LocalCount(h + more, qname, n) == LocalCount(h, qname, n)
  {
    if n > 0 { LocalCountPrefix(h, more, qname, n - 1); }
  }

  /** Later additions never change what a local number names. */
  lemma LocalNumbersStay(h: History, more: History, qname: nat, k: nat, i: nat)
    requires IsLocal(h, qname, k, i)
    ensures IsLocal(h + more, qname, k, i) && (h + more)[i] == h[i]
  {
    LocalCountPrefix(h, more, qname, i);
  }

  //
  // Ring arithmetic
  //

  /** Two live entries never share a slot. */
  lemma SlotsApart(i: nat, j: nat, capacity: nat)
    requires capacity > 0 && i < j < i + capacity
    ensures i % capacity != j % capacity
  {
    DivMod(i, capacity);
    DivMod(j, capacity);
    var q, s := i / capacity, j / capacity;
    if i % capacity == j % capacity {
      if s <= q { MulMono(s, q, capacity); } else { MulMono(q, q, capacity); MulMono(q + 1, s, capacity); }
    }
  }

  lemma SameSlot(i: nat, capacity: nat)
    requires capacity > 0 && i >= capacity
    ensures (i - capacity) % capacity == i % capacity
  {
    var x := i - capacity;
    DivMod(x, capacity);
    MulMono(x / capacity, x / capacity, capacity);
    ModUnique(i, x / capacity + 1, x % capacity, capacity);
  }

  /** Every used slot holds a live entry. */
  lemma {:induction false} SlotHolds(n: nat, capacity: nat, g: nat) returns (i: nat)
    requires capacity > 0 && g < capacity && g < n
    ensures i < n <= i + capacity && i % capacity == g
    decreases n
  {
    if n <= capacity {
      i := g;
    } else {
      i := SlotHolds(n - 1, capacity, g);
      if i + capacity < n {
        assert i + capacity == n - 1;
        SameSlot(i + capacity, capacity);
        i := i + capacity;
      }
    }
  }

  //
  // The table
  //

  datatype GlobalEntry = GlobalEntry(value: Text, localEntryIndex: nat, taken: bool)
  datatype LocalEntry = LocalEntry(qnameId: nat, globalId: nat, taken: bool)

  /** Local entry i is history entry i; it is taken exactly while it is live. */
  predicate LocalOk(h: History, capacity: nat, locals: seq<LocalEntry>, i: nat)
    requires i < |h| <= |locals| && capacity > 0
  {
    locals[i] == LocalEntry(h[i].0, i % capacity, Live(h, capacity, i))
  }

  /** The slot of a live entry holds its value and points back at it. */
  predicate GlobalOk(h: History, capacity: nat, globals: seq<GlobalEntry>, i: nat)
    requires i < |h| && |globals| == capacity && capacity > 0
  {
    Live(h, capacity, i) ==> globals[i % capacity] == GlobalEntry(h[i].1, i, true)
  }

  predicate Apart(h: History, capacity: nat, i: nat, j: nat)
    requires i < |h| && j < |h|
  {
    i < j && Live(h, capacity, i) && Live(h, capacity, j) ==> h[i].1 != h[j].1
  }

  /** The two arrays are the history seen through a ring of `capacity` slots. */
  ghost predicate Ring(h: History, capacity: nat, globals: seq<GlobalEntry>, locals: seq<LocalEntry>) {
    && capacity > 0 && |globals| == capacity && |h| <= |locals|
    && (forall i: nat :: i < |h| ==> LocalOk(h, capacity, locals, i) && GlobalOk(h, capacity, globals, i))
    && (forall g: nat :: |h| <= g < capacity ==> !globals[g].taken)
    && (forall i: nat, j: nat :: i < |h| && j < |h| ==> Apart(h, capacity, i, j))
  }

  lemma NextSlot(n: nat, capacity: nat)
    requires capacity > 0
    ensures n < capacity ==> n % capacity == n
    ensures (n + 1) % capacity == if n % capacity + 1 == capacity then 0 else n % capacity + 1
  {
    var q, r := n / capacity, n % capacity;
    assert n == q * capacity + r;
    if r + 1 == capacity {
      assert n + 1 == (q + 1) * capacity;
      Quotient(n + 1, q + 1, 0, capacity);
    } else {
      Quotient(n + 1, q, r + 1, capacity);
    }
    if n < capacity { Quotient(n, 0, n, capacity); }
  }

  lemma Quotient(x: nat, q: nat, r: nat, m: nat)
    requires m > 0 && x == q * m + r && r < m
    ensures x / m == q && x % m == r
  {
    ModUnique(x, q, r, m);
  }

  /** What stands in the slot the next value will take: the oldest live entry, once the ring is full. */
  lemma NextHolds(h: History, capacity: nat, globals: seq<GlobalEntry>, locals: seq<LocalEntry>)
    requires Ring(h, capacity, globals, locals)
    ensures var slot := |h| % capacity;
      if |h| >= capacity then globals[slot].taken && globals[slot].localEntryIndex == |h| - capacity else !globals[slot].taken
  {
    var n := |h|;
    if n >= capacity {
      SameSlot(n, capacity);
      assert GlobalOk(h, capacity, globals, n - capacity);
    } else {
      NextSlot(n, capacity);
    }
  }

  /** Taking the next slot keeps the ring. */
  lemma InsertKeeps(h: History, capacity: nat, globals: seq<GlobalEntry>, locals: seq<LocalEntry>, qname: nat, value: Text)
    requires Ring(h, capacity, globals, locals) && |h| < |locals| && !LiveValue(h, capacity, value)
    ensures var n := |h|;
      var slot := n % capacity;
      var cleared := if n >= capacity then locals[n - capacity := locals[n - capacity].(taken := false)] else locals;
      Ring(h + [(qname, value)], capacity, globals[slot := GlobalEntry(value, n, true)], cleared[n := LocalEntry(qname, slot, true)])
  {
    var n := |h|;
    var slot := n % capacity;
    var more := h + [(qname, value)];
    var cleared := if n >= capacity then locals[n - capacity := locals[n - capacity].(taken := false)] else locals;
    var globals', locals' := globals[slot := GlobalEntry(value, n, true)], cleared[n := LocalEntry(qname, slot, true)];
    NextSlot(n, capacity);
    forall i: nat | i < |more|
      ensures LocalOk(more, capacity, locals', i) && GlobalOk(more, capacity, globals', i)
    {
      if i < n {
        assert LocalOk(h, capacity, locals, i) && GlobalOk(h, capacity, globals, i);
        if Live(more, capacity, i) { SlotsApart(i, n, capacity); }
      }
    }
    forall i: nat, j: nat | i < |more| && j < |more|
      ensures Apart(more, capacity, i, j)
    {
      if i < n && j < n { assert Apart(h, capacity, i, j); }
      if i < j == n && Live(more, capacity, i) { assert Live(h, capacity, i) && h[i].1 != value; }
    }
  }

  class ValueTable {
    const literals: StringTable
    const globalEntries: array<GlobalEntry>
    const localEntries: array<LocalEntry>
    const capacity: nat
    const valueMaxLength: nat
    var globalCount: nat
    var nextGlobalId: nat
    var localEntryCount: nat
    ghost var history: History

    constructor (maxLiterals: nat, textCapacity: nat, maxLength: nat, bounded: nat)
      requires maxLiterals > 0 && bounded > 0
      ensures Valid() && history == [] && fresh(literals) && fresh(globalEntries) && fresh(localEntries)
      ensures capacity == bounded && valueMaxLength == maxLength
    {
      literals := new StringTable(maxLiterals, textCapacity);
      globalEntries := new GlobalEntry[bounded](_ => GlobalEntry([], 0, false));
      localEntries := new LocalEntry[maxLiterals](_ => LocalEntry(NO_QNAME, NO_QNAME, false));
      capacity, valueMaxLength := bounded, maxLength;
      globalCount, nextGlobalId, localEntryCount, history := 0, 0, 0, [];
      new;
      NextSlot(0, capacity);
    }

    /** A partition capacity of zero is refused, like every table without entries. */
    static method Initialize(maxLiterals: nat, textCapacity: nat, maxLength: nat, partitionCapacity: nat)
      returns (status: Status, table: ValueTable?)
      ensures status == Success <==> maxLiterals > 0 && textCapacity > 0 && partitionCapacity > 0
      ensures status == Success ==>
                && table != null && fresh(table) && table.Valid() && table.history == []
                && table.capacity == if partitionCapacity < maxLiterals then partitionCapacity else maxLiterals
    {
      var bounded := if partitionCapacity < maxLiterals then partitionCapacity else maxLiterals;
      if maxLiterals == 0 || textCapacity == 0 || bounded == 0 {
        return InvalidParameter, null;
      }
      table := new ValueTable(maxLiterals, textCapacity, maxLength, bounded);
      status := Success;
    }

    ghost predicate Valid()
      reads this, literals, globalEntries, localEntries
    {
      && literals.Valid() && Ring(history, capacity, globalEntries[..], localEntries[..])
      && localEntryCount == |history|
      && globalCount == (if |history| < capacity then |history| else capacity)
      && nextGlobalId == |history| % capacity
    }

    predicate Enters(qnameId: nat, codePointLength: nat) {
      0 < codePointLength <= valueMaxLength && qnameId != NO_QNAME
    }

    /** Add a literal; a value that may enter the partition takes the next slot of the ring. */
    method AddLiteral(qnameId: nat, codePointLength: nat, value: Text) returns (status: Status)
      requires Valid()
      modifies this, literals, globalEntries, localEntries
      ensures Valid()
      ensures Enters(qnameId, codePointLength) && status == Success ==>
                !LiveValue(old(history), capacity, value) && history == old(history) + [(qnameId, value)]
      ensures !(Enters(qnameId, codePointLength) && status == Success) ==> history == old(history)
      ensures status == Success ==>
                Stored(literals.maxEntries, literals.textCapacity, old(literals.entries), value) == Some(literals.entries)
      ensures status == BufferTooSmall <==>
                && value !in old(literals.entries)
                && (|old(literals.entries)| >= literals.maxEntries || old(literals.textLength) + |value| > literals.textCapacity)
      ensures status == InvalidNetworkResponse <==>
                && status != BufferTooSmall && Enters(qnameId, codePointLength)
                && (|old(history)| >= localEntries.Length || LiveValue(old(history), capacity, value))
      ensures status in {Success, BufferTooSmall, InvalidNetworkResponse}
    {
      hide Ring; hide LiveValue; hide TotalLength;
      var index;
      status, index := literals.Add(value);
      if status != Success {
        return;
      }
      if codePointLength == 0 || codePointLength > valueMaxLength || qnameId == NO_QNAME {
        return;
      }
      if localEntryCount >= localEntries.Length {
        return InvalidNetworkResponse;
      }
      var present := IsLive(value);
      if present {
        return InvalidNetworkResponse;
      }
      Insert(qnameId, value);
    }

    /** Is the value in one of the used slots? */
    method IsLive(value: Text) returns (present: bool)
      requires Valid()
      ensures present <==> LiveValue(history, capacity, value)
    {
      for index := 0 to globalCount
        invariant forall i: nat :: Live(history, capacity, i) && i % capacity < index ==> history[i].1 != value
      {
        ghost var i := SlotHolds(|history|, capacity, index);
        assert GlobalOk(history, capacity, globalEntries[..], i);
        if globalEntries[index].taken && globalEntries[index].value == value {
          assert Live(history, capacity, i);
          return true;
        }
        forall j: nat | Live(history, capacity, j) && j % capacity == index
          ensures j == i
        {
          if i < j { SlotsApart(i, j, capacity); }
          if j < i { SlotsApart(j, i, capacity); }
        }
      }
      forall i: nat | Live(history, capacity, i)
        ensures i % capacity < globalCount
      {
        if |history| < capacity { NextSlot(i, capacity); }
      }
      present := false;
    }

    /** Push the value into the ring; the entry that held the slot is no longer taken. */
    method Insert(qnameId: nat, value: Text)
      requires Valid() && |history| < localEntries.Length && !LiveValue(history, capacity, value)
      modifies this, globalEntries, localEntries
      ensures Valid() && history == old(history) + [(qnameId, value)]
    {
      hide Ring; hide LiveValue;
      ghost var n := |history|;
      RingSizes(history, capacity, globalEntries[..], localEntries[..]);
      NextHolds(history, capacity, globalEntries[..], localEntries[..]);
      InsertKeeps(history, capacity, globalEntries[..], localEntries[..], qnameId, value);
      NextSlot(n, capacity);
      var slot := nextGlobalId;
      if globalEntries[slot].taken {
        var pushedOut := globalEntries[slot].localEntryIndex;
        localEntries[pushedOut] := localEntries[pushedOut].(taken := false);
      } else {
        globalCount := globalCount + 1;
      }
      localEntries[localEntryCount] := LocalEntry(qnameId, slot, true);
      globalEntries[slot] := GlobalEntry(value, localEntryCount, true);
      localEntryCount := localEntryCount + 1;
      nextGlobalId := nextGlobalId + 1;
      if nextGlobalId == capacity {
        nextGlobalId := 0;
      }
      history := history + [(qnameId, value)];
    }

    method CountLocal(qnameId: nat) returns (count: nat)
      requires Valid()
      ensures count == LocalCount(history, qnameId, |history|)
    {
      count := 0;
      for index := 0 to localEntryCount
        invariant count == LocalCount(history, qnameId, index)
      {
        assert LocalOk(history, capacity, localEntries[..], index);
        if localEntries[index].qnameId == qnameId {
          count := count + 1;
        }
      }
    }

    /** The value with the local number read: refused when the number is out of range or its value was evicted. */
    method ReadLocal(input: ExiInput, qnameId: nat) returns (status: Status, value: Text, ghost entry: nat)
      requires Valid() && input.Valid()
      modifies input
      ensures Valid() && input.Valid()
      ensures status == InvalidParameter <==> qnameId == NO_QNAME
      ensures var choice := ChoiceRead(input.data, input.mode, old(input.bitOffset), LocalCount(history, qnameId, |history|));
        && (status == Success ==>
              && choice.Some? && IsLocal(history, qnameId, choice.value.0, entry) && Live(history, capacity, entry)
              && value == history[entry].1 && input.bitOffset == choice.value.1)
        && (status == InvalidNetworkResponse && choice.Some? ==>
              IsLocal(history, qnameId, choice.value.0, entry) && !Live(history, capacity, entry))
      ensures status in {Success, InvalidParameter, InvalidNetworkResponse}
    {
      hide ChoiceRead;
      value, entry := [], 0;
      if qnameId == NO_QNAME {
        return InvalidParameter, value, entry;
      }
      var localCount := CountLocal(qnameId);
      var ok, localId := ReadChoice(input, localCount);
      if !ok {
        return InvalidNetworkResponse, value, entry;
      }
      ChoiceInRange(input.data, input.mode, old(input.bitOffset), localCount);
      var currentLocalId := 0;
      for index := 0 to localEntryCount
        invariant currentLocalId == LocalCount(history, qnameId, index) <= localId
      {
        assert LocalOk(history, capacity, localEntries[..], index) && GlobalOk(history, capacity, globalEntries[..], index);
        if localEntries[index].qnameId == qnameId {
          if currentLocalId == localId {
            entry := index;
            if !localEntries[index].taken {
              return InvalidNetworkResponse, value, entry;
            }
            value := globalEntries[localEntries[index].globalId].value;
            return Success, value, entry;
          }
          currentLocalId := currentLocalId + 1;
        }
      }
      assert false;
    }

    /** The value in the slot read. Every used slot holds a live value. */
    method ReadGlobal(input: ExiInput) returns (status: Status, value: Text, ghost entry: nat)
      requires Valid() && input.Valid()
      modifies input
      ensures Valid() && input.Valid()
      ensures var choice := ChoiceRead(input.data, input.mode, old(input.bitOffset), globalCount);
        && (status == Success <==> choice.Some?)
        && (status == Success ==>
              && Live(history, capacity, entry) && entry % capacity == choice.value.0
              && value == history[entry].1 && input.bitOffset == choice.value.1)
      ensures status in {Success, InvalidNetworkResponse}
    {
      hide ChoiceRead;
      value, entry := [], 0;
      var ok, globalId := ReadChoice(input, globalCount);
      if !ok {
        return InvalidNetworkResponse, value, entry;
      }
      ChoiceInRange(input.data, input.mode, old(input.bitOffset), globalCount);
      entry := SlotHolds(|history|, capacity, globalId);
      assert GlobalOk(history, capacity, globalEntries[..], entry);
      value := globalEntries[globalId].value;
      status := Success;
    }
  }

  lemma RingSizes(h: History, capacity: nat, globals: seq<GlobalEntry>, locals: seq<LocalEntry>)
    requires Ring(h, capacity, globals, locals)
    ensures capacity > 0 && |globals| == capacity && |h| <= |locals|
  {
  }

  lemma ChoiceInRange(data: seq<byte>, mode: InputMode, pos: nat, count: nat)
    ensures ChoiceRead(data, mode, pos, count).Some? ==> ChoiceRead(data, mode, pos, count).value.0 < count
  {
    hide ChoiceRead;
  }
}
