// String values of events (Efficient XML Interchange 1.0, sections 7.1.10 and 7.3.3): a hit in the local or
// the global value partition, or a literal that enters both. A writer that keeps the same partitions
// is read back value for value, however the partitions fill, overflow and evict.
module ExiStrings {
  import opened Common
  import opened ExiBits
  import opened ExiValues
  import opened Utf8

  datatype Limits = Limits(maxEntries: nat, textCapacity: nat, locals: nat, capacity: nat, maxLength: nat)
  datatype Tables = Tables(history: History, literals: seq<Text>)

  /** The characters XML 1.0 allows. */
  predicate XmlChar(c: nat) {
    c == 0x09 || c == 0x0a || c == 0x0d || 0x20 <= c <= 0xd7ff || 0xe000 <= c <= 0xfffd || 0x1_0000 <= c <= 0x10_ffff
  }

  /** n code points, each an unsigned integer. */
  function CharsRead(data: seq<byte>, mode: InputMode, pos: nat, n: nat): (r: Option<(seq<CodePoint>, nat)>)
    ensures r.Some? ==> |r.value.0| == n
  {
    if n == 0 then Some(([], pos))
    else
      match CharsRead(data, mode, pos, n - 1)
      case None => None
      case Some(front) =>
        match UnsignedRead(data, mode, front.1)
        case None => None
        case Some(c) =>
          if XmlChar(c.0 % 0x1_0000_0000) then Some((front.0 + [c.0 % 0x1_0000_0000], c.1)) else None
  }

  /** The partitions after a literal of n characters; None when there is no room or the value is already live. */
  ghost function Entered(l: Limits, t: Tables, qname: nat, n: nat, value: Text): Option<Tables> {
    match Stored(l.maxEntries, l.textCapacity, t.literals, value)
    case None => None
    case Some(literals) =>
      if !(0 < n <= l.maxLength && qname != NO_QNAME) then Some(Tables(t.history, literals))
      else if |t.history| >= l.locals || LiveValue(t.history, l.capacity, value) then None
      else Some(Tables(t.history + [(qname, value)], literals))
  }

  function GlobalCount(l: Limits, h: History): nat {
    if |h| < l.capacity then |h| else l.capacity
  }

  /** The live entry with this local number. */
  ghost predicate LocalHit(l: Limits, h: History, qname: nat, number: nat, value: Text) {
    exists i: nat :: IsLocal(h, qname, number, i) && Live(h, l.capacity, i) && h[i].1 == value
  }

  /** The live entry in this slot. */
  ghost predicate GlobalHit(l: Limits, h: History, slot: nat, value: Text) {
    exists i: nat :: l.capacity > 0 && Live(h, l.capacity, i) && i % l.capacity == slot && h[i].1 == value
  }

  /** Reading one value of the qname at pos gives this value, position and partitions. */
  ghost predicate Reads(data: seq<byte>, mode: InputMode, pos: nat, l: Limits, t: Tables, qname: nat,
                        value: Text, end: nat, t': Tables)
  {
    match UnsignedRead(data, mode, pos)
    case None => false
    case Some(m) =>
      var marker := m.0 % 0x1_0000_0000;
      if marker == 0 then
        var choice := ChoiceRead(data, mode, m.1, LocalCount(t.history, qname, |t.history|));
        && qname != NO_QNAME && choice.Some? && end == choice.value.1 && t' == t
        && LocalHit(l, t.history, qname, choice.value.0, value)
      else if marker == 1 then
        var choice := ChoiceRead(data, mode, m.1, GlobalCount(l, t.history));
        choice.Some? && end == choice.value.1 && t' == t && GlobalHit(l, t.history, choice.value.0, value)
      else if marker == 2 then value == [] && end == m.1 && t' == t
      else
        match CharsRead(data, mode, m.1, marker - 2)
        case None => false
        case Some(cs) => value == Encode(cs.0) && end == cs.1 && Entered(l, t, qname, marker - 2, value) == Some(t')
  }

  lemma SlotUnique(h: History, capacity: nat, i: nat, j: nat)
    requires capacity > 0 && Live(h, capacity, i) && Live(h, capacity, j) && i % capacity == j % capacity
    ensures i == j
  {
    if i < j { SlotsApart(i, j, capacity); }
    if j < i { SlotsApart(j, i, capacity); }
  }

  /** There is at most one way to read a value. */
  lemma ReadsOnce(data: seq<byte>, mode: InputMode, pos: nat, l: Limits, t: Tables, qname: nat,
                  v1: Text, e1: nat, t1: Tables, v2: Text, e2: nat, t2: Tables)
    requires Reads(data, mode, pos, l, t, qname, v1, e1, t1) && Reads(data, mode, pos, l, t, qname, v2, e2, t2)
    ensures v1 == v2 && e1 == e2 && t1 == t2
  {
    hide UnsignedRead; hide ChoiceRead; hide CharsRead; hide Encode; hide Entered; hide LocalCount;
    var m := UnsignedRead(data, mode, pos).value;
    var h := t.history;
    if m.0 % 0x1_0000_0000 == 0 {
      var k := ChoiceRead(data, mode, m.1, LocalCount(h, qname, |h|)).value.0;
      var i: nat :| IsLocal(h, qname, k, i) && Live(h, l.capacity, i) && h[i].1 == v1;
      var j: nat :| IsLocal(h, qname, k, j) && Live(h, l.capacity, j) && h[j].1 == v2;
      LocalUnique(h, qname, k, i, j);
    } else if m.0 % 0x1_0000_0000 == 1 {
      var g := ChoiceRead(data, mode, m.1, GlobalCount(l, h)).value.0;
      var i: nat :| Live(h, l.capacity, i) && i % l.capacity == g && h[i].1 == v1;
      var j: nat :| Live(h, l.capacity, j) && j % l.capacity == g && h[j].1 == v2;
      SlotUnique(h, l.capacity, i, j);
    }
  }

  //
  // The reader
  //

  ghost function LimitsOf(table: ValueTable): Limits {
    Limits(table.literals.maxEntries, table.literals.textCapacity, table.localEntries.Length, table.capacity, table.valueMaxLength)
  }

  ghost function TablesOf(table: ValueTable): Tables
    reads table, table.literals
  {
    Tables(table.history, table.literals.entries)
  }

  method AppendUtf8(value: nat, bytes: seq<byte>) returns (ok: bool, longer: seq<byte>)
    ensures ok <==> XmlChar(value)
    ensures ok ==> longer == bytes + Encoded(value)
  {
    longer := bytes;
    if !XmlChar(value) {
      return false, longer;
    }
    if value <= 0x7f {
      longer := bytes + [value];
    } else if value <= 0x7ff {
      longer := bytes + [0xc0 + value / 0x40, 0x80 + value % 0x40];
    } else if value <= 0xffff {
      longer := bytes + [0xe0 + value / 0x1000, 0x80 + value / 0x40 % 0x40, 0x80 + value % 0x40];
    } else {
      longer := bytes + [0xf0 + value / 0x4_0000, 0x80 + value / 0x1000 % 0x40, 0x80 + value / 0x40 % 0x40, 0x80 + value % 0x40];
    }
    ok := true;
  }

  lemma EncodeNext(cs: seq<CodePoint>, c: CodePoint)
    ensures Encode(cs + [c]) == Encode(cs) + Encoded(c)
  {
    assert (cs + [c])[..|cs|] == cs;
  }

  lemma CharsStop(data: seq<byte>, mode: InputMode, pos: nat, k: nat, n: nat)
    requires k <= n && CharsRead(data, mode, pos, k) == None
    ensures CharsRead(data, mode, pos, n) == None
    decreases n
  {
    hide UnsignedRead;
    if k < n { CharsStop(data, mode, pos, k, n - 1); }
  }

  method ReadChars(input: ExiInput, count: nat) returns (ok: bool, bytes: seq<byte>)
    requires input.Valid()
    modifies input
    ensures input.Valid()
    ensures ok <==> CharsRead(input.data, input.mode, old(input.bitOffset), count).Some?
    ensures ok ==>
              var cs := CharsRead(input.data, input.mode, old(input.bitOffset), count).value;
              bytes == Encode(cs.0) && input.bitOffset == cs.1
  {
    hide UnsignedRead; hide Encoded;
    bytes := [];
    ok := true;
    for index := 0 to count
      invariant input.Valid()
      invariant var cs := CharsRead(input.data, input.mode, old(input.bitOffset), index);
        cs.Some? && cs.value.1 == input.bitOffset && bytes == Encode(cs.value.0)
    {
      ghost var front := CharsRead(input.data, input.mode, old(input.bitOffset), index).value;
      var codePoint;
      ok, codePoint := input.ReadUnsignedInteger();
      if ok {
        ok, bytes := AppendUtf8(codePoint, bytes);
      }
      if !ok {
        CharsStop(input.data, input.mode, old(input.bitOffset), index + 1, count);
        return;
      }
      EncodeNext(front.0, codePoint);
    }
  }

  /** No value is read here. */
  ghost predicate Unreadable(data: seq<byte>, mode: InputMode, pos: nat, l: Limits, t: Tables, qname: nat) {
    forall value: Text, end: nat, t': Tables :: !Reads(data, mode, pos, l, t, qname, value, end, t')
  }

  method ReadValueString(input: ExiInput, table: ValueTable, qnameId: nat) returns (status: Status, value: Text)
    requires input.Valid() && table.Valid()
    modifies input, table, table.literals, table.globalEntries, table.localEntries
    ensures input.Valid() && table.Valid()
    ensures status == Success ==>
              Reads(input.data, input.mode, old(input.bitOffset), LimitsOf(table), old(TablesOf(table)), qnameId,
                    value, input.bitOffset, TablesOf(table))
    ensures status != Success ==>
              Unreadable(input.data, input.mode, old(input.bitOffset), LimitsOf(table), old(TablesOf(table)), qnameId)
  {
    hide UnsignedRead; hide ChoiceRead; hide Encode; hide CharsRead; hide LocalCount; hide Ring; hide TotalLength;
    hide LiveValue; hide IsLocal; hide Live;
    value := [];
    ghost var t := TablesOf(table);
    ghost var start := input.bitOffset;
    var ok, marker := input.ReadUnsignedInteger();
    if !ok {
      return InvalidNetworkResponse, value;
    }
    if marker == 0 {
      ghost var entry;
      status, value, entry := table.ReadLocal(input, qnameId);
      ReadLocalIs(input.data, input.mode, start, LimitsOf(table), t, qnameId, entry);
      return;
    }
    if marker == 1 {
      ghost var entry;
      status, value, entry := table.ReadGlobal(input);
      return;
    }
    if marker - 2 == 0 {
      return Success, value;
    }
    ok, value := ReadChars(input, marker - 2);
    if !ok {
      return InvalidNetworkResponse, value;
    }
    status := table.AddLiteral(qnameId, marker - 2, value);
  }

  lemma ReadLocalIs(data: seq<byte>, mode: InputMode, pos: nat, l: Limits, t: Tables, qname: nat, entry: nat)
    requires UnsignedRead(data, mode, pos).Some? && UnsignedRead(data, mode, pos).value.0 % 0x1_0000_0000 == 0
    ensures var choice := ChoiceRead(data, mode, UnsignedRead(data, mode, pos).value.1, LocalCount(t.history, qname, |t.history|));
      choice.Some? && IsLocal(t.history, qname, choice.value.0, entry) && !Live(t.history, l.capacity, entry)
      ==> Unreadable(data, mode, pos, l, t, qname)
  {
    hide UnsignedRead; hide ChoiceRead; hide LocalCount; hide Live; hide IsLocal;
    var choice := ChoiceRead(data, mode, UnsignedRead(data, mode, pos).value.1, LocalCount(t.history, qname, |t.history|));
    if choice.Some? && IsLocal(t.history, qname, choice.value.0, entry) && !Live(t.history, l.capacity, entry) {
      forall i: nat | IsLocal(t.history, qname, choice.value.0, i)
        ensures i == entry
      {
        LocalUnique(t.history, qname, choice.value.0, i, entry);
      }
    }
  }

  //
  // The writer
  //

  ghost predicate OwnHit(l: Limits, h: History, qname: nat, value: Text, i: nat) {
    Live(h, l.capacity, i) && h[i] == (qname, value)
  }

  ghost predicate HasOwnHit(l: Limits, h: History, qname: nat, value: Text) {
    exists i: nat :: OwnHit(l, h, qname, value, i)
  }

  ghost function OwnEntry(l: Limits, h: History, qname: nat, value: Text): (i: nat)
    requires HasOwnHit(l, h, qname, value)
    ensures OwnHit(l, h, qname, value, i)
  {
    var i: nat :| OwnHit(l, h, qname, value, i);
    i
  }

  ghost function LiveEntry(l: Limits, h: History, value: Text): (i: nat)
    requires LiveValue(h, l.capacity, value)
    ensures Live(h, l.capacity, i) && h[i].1 == value
  {
    var i: nat :| Live(h, l.capacity, i) && h[i].1 == value;
    i
  }

  function LocalWritten(mode: InputMode, h: History, qname: nat, i: nat): seq<bool>
    requires i <= |h|
  {
    UnsignedWritten(mode, 0) + ChoiceWritten(mode, LocalCount(h, qname, i), LocalCount(h, qname, |h|))
  }

  function GlobalWritten(mode: InputMode, l: Limits, h: History, i: nat): seq<bool>
    requires l.capacity > 0
  {
    UnsignedWritten(mode, 1) + ChoiceWritten(mode, i % l.capacity, GlobalCount(l, h))
  }

  function LiteralWritten(mode: InputMode, cs: seq<CodePoint>): seq<bool> {
    UnsignedWritten(mode, |cs| + 2) + CharsWritten(mode, cs)
  }

  function CharsWritten(mode: InputMode, cs: seq<CodePoint>): seq<bool> {
    if |cs| == 0 then [] else CharsWritten(mode, cs[..|cs| - 1]) + UnsignedWritten(mode, cs[|cs| - 1])
  }

  /**
   * What a writer emits for a value: the number of a live entry of the same qname if there is one, else the
   * slot of any live entry with the value, else the characters; and its partitions afterwards.
   */
  ghost function Written(mode: InputMode, l: Limits, t: Tables, qname: nat, cs: seq<CodePoint>): Option<(seq<bool>, Tables)> {
    var value := Encode(cs);
    var h := t.history;
    if |cs| == 0 then Some((UnsignedWritten(mode, 2), t))
    else if qname != NO_QNAME && HasOwnHit(l, h, qname, value) then
      Some((LocalWritten(mode, h, qname, OwnEntry(l, h, qname, value)), t))
    else if l.capacity > 0 && LiveValue(h, l.capacity, value) then
      Some((GlobalWritten(mode, l, h, LiveEntry(l, h, value)), t))
    else
      match Entered(l, t, qname, |cs|, value)
      case None => None
      case Some(t') => Some((LiteralWritten(mode, cs), t'))
  }

  /** The text is one XML can carry, and the numbers involved fit their 32-bit fields. */
  predicate Sendable(h: History, cs: seq<CodePoint>) {
    (forall k :: 0 <= k < |cs| ==> XmlChar(cs[k])) && |cs| + 2 < 0x1_0000_0000 && |h| <= 0x8000_0000
  }

  predicate Aligned(mode: InputMode, n: nat) {
    mode == ByteAligned ==> n % 8 == 0
  }

  lemma {:induction false} UnsignedAligned(mode: InputMode, v: nat)
    ensures Aligned(mode, |UnsignedWritten(mode, v)|)
    decreases v
  {
    hide BitsWritten;
    if v >= 0x80 { UnsignedAligned(mode, v / 0x80); }
  }

  /** A number of 32 bits is read back whole. */
  lemma NumberRead(data: seq<byte>, mode: InputMode, pos: nat, v: nat, more: seq<bool>)
    requires v < 0x1_0000_0000 && Stand(data, pos, UnsignedWritten(mode, v) + more) && Aligned(mode, pos)
    ensures var next := pos + |UnsignedWritten(mode, v)|;
      && UnsignedRead(data, mode, pos) == Some((v, next)) && v % 0x1_0000_0000 == v
      && Aligned(mode, next) && Stand(data, next, more)
  {
    hide UnsignedRead; hide UnsignedWritten; hide Stand;
    StandSplit(data, pos, UnsignedWritten(mode, v), more);
    UnsignedInverts(data, mode, pos, v);
    UnsignedAligned(mode, v);
  }

  lemma {:induction false} CharsInvert(data: seq<byte>, mode: InputMode, pos: nat, cs: seq<CodePoint>)
    requires Stand(data, pos, CharsWritten(mode, cs)) && Aligned(mode, pos)
    requires forall k :: 0 <= k < |cs| ==> XmlChar(cs[k])
    ensures var end := pos + |CharsWritten(mode, cs)|;
      CharsRead(data, mode, pos, |cs|) == Some((cs, end)) && Aligned(mode, end)
  {
    hide UnsignedRead; hide UnsignedWritten; hide Stand; hide XmlChar;
    if |cs| > 0 {
      var front, c := cs[..|cs| - 1], cs[|cs| - 1];
      StandSplit(data, pos, CharsWritten(mode, front), UnsignedWritten(mode, c));
      CharsInvert(data, mode, pos, front);
      var bits := UnsignedWritten(mode, c);
      assert bits + [] == bits;
      NumberRead(data, mode, pos + |CharsWritten(mode, front)|, c, []);
      assert front + [c] == cs;
    }
  }

  lemma EmptyInverts(data: seq<byte>, mode: InputMode, pos: nat, l: Limits, t: Tables, qname: nat)
    requires Stand(data, pos, UnsignedWritten(mode, 2)) && Aligned(mode, pos)
    ensures var end := pos + |UnsignedWritten(mode, 2)|;
      Reads(data, mode, pos, l, t, qname, [], end, t) && Aligned(mode, end)
  {
    hide UnsignedRead; hide UnsignedWritten; hide Stand;
    assert UnsignedWritten(mode, 2) + [] == UnsignedWritten(mode, 2);
    NumberRead(data, mode, pos, 2, []);
  }

  lemma LocalInverts(data: seq<byte>, mode: InputMode, pos: nat, l: Limits, t: Tables, qname: nat, value: Text, i: nat)
    requires OwnHit(l, t.history, qname, value, i) && qname != NO_QNAME && |t.history| <= 0x8000_0000
    requires Stand(data, pos, LocalWritten(mode, t.history, qname, i)) && Aligned(mode, pos)
    ensures var end := pos + |LocalWritten(mode, t.history, qname, i)|;
      Reads(data, mode, pos, l, t, qname, value, end, t) && Aligned(mode, end)
  {
    hide UnsignedRead; hide UnsignedWritten; hide Stand; hide ChoiceRead; hide ChoiceWritten; hide CharsRead;
    var h := t.history;
    LocalCountRises(h, qname, i, |h|);
    LocalCountBounded(h, qname, |h|);
    var k, n := LocalCount(h, qname, i), LocalCount(h, qname, |h|);
    NumberRead(data, mode, pos, 0, ChoiceWritten(mode, k, n));
    ChoiceInverts(data, mode, pos + |UnsignedWritten(mode, 0)|, k, n);
    assert IsLocal(h, qname, k, i);
  }

  lemma {:induction false} LocalCountBounded(h: History, qname: nat, n: nat)
    requires n <= |h|
    ensures LocalCount(h, qname, n) <= n
  {
    if n > 0 { LocalCountBounded(h, qname, n - 1); }
  }

  lemma GlobalInverts(data: seq<byte>, mode: InputMode, pos: nat, l: Limits, t: Tables, qname: nat, value: Text, i: nat)
    requires l.capacity > 0 && Live(t.history, l.capacity, i) && t.history[i].1 == value && |t.history| <= 0x8000_0000
    requires Stand(data, pos, GlobalWritten(mode, l, t.history, i)) && Aligned(mode, pos)
    ensures var end := pos + |GlobalWritten(mode, l, t.history, i)|;
      Reads(data, mode, pos, l, t, qname, value, end, t) && Aligned(mode, end)
  {
    hide UnsignedRead; hide UnsignedWritten; hide Stand; hide ChoiceRead; hide ChoiceWritten; hide CharsRead;
    var slot, n := i % l.capacity, GlobalCount(l, t.history);
    NextSlot(i, l.capacity);
    NumberRead(data, mode, pos, 1, ChoiceWritten(mode, slot, n));
    ChoiceInverts(data, mode, pos + |UnsignedWritten(mode, 1)|, slot, n);
  }

  lemma LiteralInverts(data: seq<byte>, mode: InputMode, pos: nat, l: Limits, t: Tables, qname: nat, cs: seq<CodePoint>)
    requires Sendable(t.history, cs) && |cs| > 0 && Entered(l, t, qname, |cs|, Encode(cs)).Some?
    requires Stand(data, pos, LiteralWritten(mode, cs)) && Aligned(mode, pos)
    ensures var end := pos + |LiteralWritten(mode, cs)|;
      Reads(data, mode, pos, l, t, qname, Encode(cs), end, Entered(l, t, qname, |cs|, Encode(cs)).value) && Aligned(mode, end)
  {
    hide UnsignedRead; hide UnsignedWritten; hide Stand; hide ChoiceRead; hide CharsRead; hide CharsWritten;
    hide Entered; hide Encode; hide XmlChar;
    NumberRead(data, mode, pos, |cs| + 2, CharsWritten(mode, cs));
    CharsInvert(data, mode, pos + |UnsignedWritten(mode, |cs| + 2)|, cs);
  }

  /** What was written for a value is read back as its text, and reader and writer hold the same partitions again. */
  lemma StringInverts(data: seq<byte>, mode: InputMode, pos: nat, l: Limits, t: Tables, qname: nat, cs: seq<CodePoint>)
    requires Sendable(t.history, cs) && Aligned(mode, pos)
    requires Written(mode, l, t, qname, cs).Some? && Stand(data, pos, Written(mode, l, t, qname, cs).value.0)
    ensures var w := Written(mode, l, t, qname, cs).value;
      Reads(data, mode, pos, l, t, qname, Encode(cs), pos + |w.0|, w.1) && Aligned(mode, pos + |w.0|)
  {
    hide UnsignedWritten; hide Stand; hide LocalWritten; hide GlobalWritten; hide LiteralWritten; hide Entered; hide Reads;
    hide HasOwnHit; hide LiveValue; hide Live; hide OwnHit; hide Sendable;
    var h, value := t.history, Encode(cs);
    SendableIs(h, cs);
    if |cs| == 0 {
      EmptyInverts(data, mode, pos, l, t, qname);
    } else if qname != NO_QNAME && HasOwnHit(l, h, qname, value) {
      LocalInverts(data, mode, pos, l, t, qname, value, OwnEntry(l, h, qname, value));
    } else if l.capacity > 0 && LiveValue(h, l.capacity, value) {
      GlobalInverts(data, mode, pos, l, t, qname, value, LiveEntry(l, h, value));
    } else {
      LiteralInverts(data, mode, pos, l, t, qname, cs);
    }
  }

  lemma SendableIs(h: History, cs: seq<CodePoint>)
    requires Sendable(h, cs)
    ensures |h| <= 0x8000_0000
  {
  }
}
