// A writer of string values that keeps a list of its own: the values it has spelled out and that are to be
// remembered (Efficient XML Interchange 1.0, section 7.3.3). What it says is read back, value for value.
module ExiPartitions {
  import opened Common
  import opened ExiBits
  import opened ExiValues
  import opened ExiStrings
  import opened Utf8

  /** Values spelled out and remembered, with the names they belong to, oldest first. */
  type Kept = seq<(nat, Text)>

  /** Named values of one character up to the longest are remembered. */
  predicate Remembered(l: Limits, qname: nat, cs: seq<CodePoint>) {
    qname != NO_QNAME && 1 <= |cs| && |cs| <= l.maxLength
  }

  /** The last values, as many as the partition holds, can be referred to. */
  predicate Held(l: Limits, kept: Kept, i: nat) {
    i < |kept| && |kept| - i <= l.capacity
  }

  /** How many of the first n values belong to a name. */
  function Earlier(kept: Kept, qname: nat, n: nat): nat
    requires n <= |kept|
  {
    if n == 0 then 0 else (if kept[0].0 == qname then 1 else 0) + Earlier(kept[1..], qname, n - 1)
  }

  /** An empty value; one of the same name that was remembered; one of any name; the characters. */
  datatype Way = Empty | Own(i: nat) | Any(i: nat) | Literal

  ghost predicate Sayable(l: Limits, kept: Kept, qname: nat, cs: seq<CodePoint>, way: Way) {
    match way
    case Empty => cs == []
    case Own(i) => qname != NO_QNAME && Held(l, kept, i) && kept[i] == (qname, Encode(cs))
    case Any(i) => Held(l, kept, i) && kept[i].1 == Encode(cs)
    case Literal => cs != [] && (Remembered(l, qname, cs) ==> forall i: nat :: Held(l, kept, i) ==> kept[i].1 != Encode(cs))
  }

  function Said(mode: InputMode, l: Limits, kept: Kept, qname: nat, cs: seq<CodePoint>, way: Way): seq<bool>
    requires (way.Own? || way.Any?) ==> Held(l, kept, way.i)
  {
    match way
    case Empty => UnsignedWritten(mode, 2)
    case Own(i) => UnsignedWritten(mode, 0) + ChoiceWritten(mode, Earlier(kept, qname, i), Earlier(kept, qname, |kept|))
    case Any(i) =>
      UnsignedWritten(mode, 1) + ChoiceWritten(mode, i % l.capacity, if |kept| < l.capacity then |kept| else l.capacity)
    case Literal => UnsignedWritten(mode, |cs| + 2) + Spelled(mode, cs)
  }

  function Spelled(mode: InputMode, cs: seq<CodePoint>): seq<bool>
    decreases |cs|
  {
    if cs == [] then [] else UnsignedWritten(mode, cs[0]) + Spelled(mode, cs[1..])
  }

  ghost function After(l: Limits, kept: Kept, qname: nat, cs: seq<CodePoint>, way: Way): Kept {
    if way == Literal && Remembered(l, qname, cs) then kept + [(qname, Encode(cs))] else kept
  }

  /** The bytes of all texts. */
  function Bytes(texts: seq<Text>): nat {
    if texts == [] then 0 else |texts[0]| + Bytes(texts[1..])
  }

  /** Each text is stored once. */
  function TextsAfter(texts: seq<Text>, x: Text): seq<Text> {
    if x in texts then texts else texts + [x]
  }

  /** The tables have room for a literal: its text, and its entry when it is remembered. */
  ghost predicate Room(l: Limits, kept: Kept, texts: seq<Text>, qname: nat, cs: seq<CodePoint>) {
    && (Encode(cs) !in texts ==> |texts| < l.maxEntries && Bytes(texts) + |Encode(cs)| <= l.textCapacity)
    && (Remembered(l, qname, cs) ==> |kept| < l.locals)
  }

  lemma {:induction false} BytesNext(texts: seq<Text>)
    requires texts != []
    ensures Bytes(texts) == Bytes(texts[..|texts| - 1]) + |texts[|texts| - 1]|
    decreases |texts|
  {
    if |texts| > 1 {
      BytesNext(texts[1..]);
      assert texts[1..][..|texts| - 2] == texts[..|texts| - 1][1..];
    }
  }

  lemma {:induction false} BytesIs(texts: seq<Text>)
    ensures Bytes(texts) == TotalLength(texts)
    decreases |texts|
  {
    if texts != [] {
      BytesNext(texts);
      BytesIs(texts[..|texts| - 1]);
    }
  }

  lemma StoredIs(l: Limits, texts: seq<Text>, x: Text)
    ensures var r := Stored(l.maxEntries, l.textCapacity, texts, x);
      && (r.Some? <==> (x !in texts ==> |texts| < l.maxEntries && Bytes(texts) + |x| <= l.textCapacity))
      && (r.Some? ==> r.value == TextsAfter(texts, x))
  {
    hide Bytes; hide TotalLength;
    BytesIs(texts);
  }

  lemma {:induction false} EarlierNext(kept: Kept, qname: nat, n: nat)
    requires n < |kept|
    ensures Earlier(kept, qname, n + 1) == Earlier(kept, qname, n) + if kept[n].0 == qname then 1 else 0
    decreases n
  {
    if n > 0 {
      EarlierNext(kept[1..], qname, n - 1);
    }
  }

  lemma {:induction false} EarlierIs(kept: Kept, qname: nat, n: nat)
    requires n <= |kept|
    ensures Earlier(kept, qname, n) == LocalCount(kept, qname, n)
    decreases n
  {
    if n > 0 {
      EarlierNext(kept, qname, n - 1);
      EarlierIs(kept, qname, n - 1);
    }
  }

  lemma {:induction false} SpelledIs(mode: InputMode, cs: seq<CodePoint>)
    ensures Spelled(mode, cs) == CharsWritten(mode, cs)
    decreases |cs|
  {
    hide UnsignedWritten;
    if |cs| == 1 {
      assert cs[1..] == [] && cs[..0] == [];
      assert UnsignedWritten(mode, cs[0]) + [] == [] + UnsignedWritten(mode, cs[0]);
    } else if |cs| > 1 {
      var front, last := cs[..|cs| - 1], cs[|cs| - 1];
      SpelledIs(mode, cs[1..]);
      SpelledIs(mode, front);
      SpelledIs(mode, cs[1..][..|cs| - 2]);
      assert cs[1..][..|cs| - 2] == front[1..];
      SpelledIs(mode, front[1..]);
      assert UnsignedWritten(mode, cs[0]) + (Spelled(mode, front[1..]) + UnsignedWritten(mode, last))
          == (UnsignedWritten(mode, cs[0]) + Spelled(mode, front[1..])) + UnsignedWritten(mode, last);
    }
  }

  /** What the reader enters is what the writer remembers. */
  lemma EnteredIs(l: Limits, t: Tables, qname: nat, cs: seq<CodePoint>)
    requires Sayable(l, t.history, qname, cs, Literal)
    ensures var e := Entered(l, t, qname, |cs|, Encode(cs));
      && (e.Some? <==> Room(l, t.history, t.literals, qname, cs))
      && (e.Some? ==> e.value == Tables(After(l, t.history, qname, cs, Literal), TextsAfter(t.literals, Encode(cs))))
  {
    hide Stored; hide Encode; hide Bytes; hide TextsAfter; hide LiveValue;
    StoredIs(l, t.literals, Encode(cs));
    if Remembered(l, qname, cs) {
      NotLive(l, t.history, qname, cs);
    }
  }

  lemma NotLive(l: Limits, kept: Kept, qname: nat, cs: seq<CodePoint>)
    requires Sayable(l, kept, qname, cs, Literal) && Remembered(l, qname, cs)
    ensures !LiveValue(kept, l.capacity, Encode(cs))
  {
    hide Encode;
    forall i: nat | Live(kept, l.capacity, i)
      ensures kept[i].1 != Encode(cs)
    {
      assert Held(l, kept, i);
    }
  }

  lemma CharsAreRead(data: seq<byte>, mode: InputMode, pos: nat, l: Limits, t: Tables, qname: nat, cs: seq<CodePoint>)
    requires Sendable(t.history, cs) && |cs| > 0 && Aligned(mode, pos)
    requires Stand(data, pos, Said(mode, l, t.history, qname, cs, Literal))
    requires Entered(l, t, qname, |cs|, Encode(cs)).Some?
    ensures var end := pos + |Said(mode, l, t.history, qname, cs, Literal)|;
      && Reads(data, mode, pos, l, t, qname, Encode(cs), end, Entered(l, t, qname, |cs|, Encode(cs)).value) && Aligned(mode, end)
  {
    hide UnsignedWritten; hide Stand; hide Entered; hide Reads; hide CharsWritten; hide Spelled;
    SpelledIs(mode, cs);
    LiteralInverts(data, mode, pos, l, t, qname, cs);
  }

  /**
   * What the writer says in any way open to it is read as its value, when there is room for a literal, and the
   * reader's tables are the writer's lists again.
   */
  lemma SaidIsRead(data: seq<byte>, mode: InputMode, pos: nat, l: Limits, t: Tables, qname: nat, cs: seq<CodePoint>, way: Way)
    returns (t': Tables)
    requires Sayable(l, t.history, qname, cs, way) && Sendable(t.history, cs) && Aligned(mode, pos)
    requires Stand(data, pos, Said(mode, l, t.history, qname, cs, way)) && (way == Literal ==> Room(l, t.history, t.literals, qname, cs))
    ensures var end := pos + |Said(mode, l, t.history, qname, cs, way)|;
      && Reads(data, mode, pos, l, t, qname, Encode(cs), end, t') && Aligned(mode, end)
      && t' == Tables(After(l, t.history, qname, cs, way), if way == Literal then TextsAfter(t.literals, Encode(cs)) else t.literals)
  {
    hide UnsignedWritten; hide ChoiceWritten; hide Stand; hide Entered; hide Reads; hide Encode; hide XmlChar; hide Spelled; hide Room;
    var h := t.history;
    t' := t;
    match way
    case Empty =>
      EmptyIs();
      EmptyInverts(data, mode, pos, l, t, qname);
    case Own(i) =>
      EarlierIs(h, qname, i);
      EarlierIs(h, qname, |h|);
      LocalInverts(data, mode, pos, l, t, qname, Encode(cs), i);
    case Any(i) =>
      GlobalInverts(data, mode, pos, l, t, qname, Encode(cs), i);
    case Literal =>
      EnteredIs(l, t, qname, cs);
      CharsAreRead(data, mode, pos, l, t, qname, cs);
      t' := Entered(l, t, qname, |cs|, Encode(cs)).value;
  }

  lemma EmptyIs()
    ensures Encode([]) == []
  {
  }

  //
  // Whole sequences
  //

  /** A value of an event: its name, its characters and the way it is said. */
  datatype Value = Value(qname: nat, cs: seq<CodePoint>, way: Way)

  ghost predicate AllSayable(l: Limits, kept: Kept, values: seq<Value>)
    decreases |values|
  {
    values != [] ==>
      var v := values[0];
      && Sayable(l, kept, v.qname, v.cs, v.way) && Sendable(kept, v.cs)
      && AllSayable(l, After(l, kept, v.qname, v.cs, v.way), values[1..])
  }

  ghost function AllSaid(mode: InputMode, l: Limits, kept: Kept, values: seq<Value>): seq<bool>
    requires AllSayable(l, kept, values)
    decreases |values|
  {
    if values == [] then []
    else
      var v := values[0];
      Said(mode, l, kept, v.qname, v.cs, v.way) + AllSaid(mode, l, After(l, kept, v.qname, v.cs, v.way), values[1..])
  }

  ghost function AllAfter(l: Limits, kept: Kept, values: seq<Value>): Kept
    decreases |values|
  {
    if values == [] then kept else AllAfter(l, After(l, kept, values[0].qname, values[0].cs, values[0].way), values[1..])
  }

  /** Every literal has room when its turn comes. */
  ghost predicate AllRoom(l: Limits, kept: Kept, texts: seq<Text>, values: seq<Value>)
    decreases |values|
  {
    values != [] ==>
      var v := values[0];
      && (v.way == Literal ==> Room(l, kept, texts, v.qname, v.cs))
      && AllRoom(l, After(l, kept, v.qname, v.cs, v.way), if v.way == Literal then TextsAfter(texts, Encode(v.cs)) else texts, values[1..])
  }

  /** Reading value after value gives these texts and ends with these tables. */
  ghost predicate ReadsAll(data: seq<byte>, mode: InputMode, pos: nat, l: Limits, t: Tables, values: seq<Value>, end: nat, t': Tables)
    decreases |values|
  {
    if values == [] then end == pos && t' == t
    else
      exists next: nat, t1: Tables ::
        && Reads(data, mode, pos, l, t, values[0].qname, Encode(values[0].cs), next, t1)
        && ReadsAll(data, mode, next, l, t1, values[1..], end, t')
  }

  /** The characters of a literal are not read without room. */
  lemma NoRoom(data: seq<byte>, mode: InputMode, pos: nat, l: Limits, t: Tables, qname: nat, cs: seq<CodePoint>, value: Text, end: nat,
               t': Tables)
    requires Sayable(l, t.history, qname, cs, Literal) && Sendable(t.history, cs) && Aligned(mode, pos)
    requires Stand(data, pos, Said(mode, l, t.history, qname, cs, Literal)) && !Room(l, t.history, t.literals, qname, cs)
    ensures !Reads(data, mode, pos, l, t, qname, value, end, t')
  {
    hide UnsignedWritten; hide UnsignedRead; hide Stand; hide Entered; hide Encode; hide XmlChar; hide Spelled; hide Room; hide CharsRead;
    hide CharsWritten;
    SpelledIs(mode, cs);
    EnteredIs(l, t, qname, cs);
    NumberRead(data, mode, pos, |cs| + 2, CharsWritten(mode, cs));
    OnlyXml(t.history, cs);
    CharsInvert(data, mode, pos + |UnsignedWritten(mode, |cs| + 2)|, cs);
  }

  lemma OnlyXml(h: History, cs: seq<CodePoint>)
    requires Sendable(h, cs)
    ensures (forall k :: 0 <= k < |cs| ==> XmlChar(cs[k])) && |cs| + 2 < 0x1_0000_0000
  {
  }

  /**
   * A whole sequence of values, each said in any way open to the writer by then, is read back value for value if
   * and only if every literal has room when its turn comes; the reader then remembers what the writer does.
   */
  lemma {:induction false} SequenceInverts(data: seq<byte>, mode: InputMode, pos: nat, l: Limits, t: Tables, values: seq<Value>)
    requires AllSayable(l, t.history, values) && Aligned(mode, pos)
    requires Stand(data, pos, AllSaid(mode, l, t.history, values))
    ensures AllRoom(l, t.history, t.literals, values) <==> exists end: nat, t': Tables :: ReadsAll(data, mode, pos, l, t, values, end, t')
    ensures forall end: nat, t': Tables :: ReadsAll(data, mode, pos, l, t, values, end, t') ==>
              end == pos + |AllSaid(mode, l, t.history, values)| && t'.history == AllAfter(l, t.history, values)
    decreases |values|
  {
    hide UnsignedWritten; hide Stand; hide Reads; hide Encode; hide XmlChar; hide Said; hide Room; hide Sendable; hide TextsAfter;
    if values == [] {
      assert ReadsAll(data, mode, pos, l, t, values, pos, t);
    } else {
      var v := values[0];
      var bits := Said(mode, l, t.history, v.qname, v.cs, v.way);
      StandSplit(data, pos, bits, AllSaid(mode, l, After(l, t.history, v.qname, v.cs, v.way), values[1..]));
      if v.way == Literal && !Room(l, t.history, t.literals, v.qname, v.cs) {
        forall next: nat, t1: Tables
          ensures !Reads(data, mode, pos, l, t, v.qname, Encode(v.cs), next, t1)
        {
          NoRoom(data, mode, pos, l, t, v.qname, v.cs, Encode(v.cs), next, t1);
        }
      } else {
        var t1 := SaidIsRead(data, mode, pos, l, t, v.qname, v.cs, v.way);
        SequenceInverts(data, mode, pos + |bits|, l, t1, values[1..]);
        ReadsThrough(data, mode, pos, l, t, values, pos + |bits|, t1);
        assert AllRoom(l, t.history, t.literals, values) <==> AllRoom(l, t1.history, t1.literals, values[1..]);
        Same(data, mode, pos, l, t, values, pos + |bits|, t1);
      }
    }
  }

  /** The first value has one reading, so the sequence is read as its rest is from there. */
  lemma ReadsThrough(data: seq<byte>, mode: InputMode, pos: nat, l: Limits, t: Tables, values: seq<Value>, next: nat, t1: Tables)
    requires values != [] && Reads(data, mode, pos, l, t, values[0].qname, Encode(values[0].cs), next, t1)
    ensures forall end: nat, t': Tables ::
              ReadsAll(data, mode, pos, l, t, values, end, t') <==> ReadsAll(data, mode, next, l, t1, values[1..], end, t')
  {
    hide Reads; hide Encode;
    forall end: nat, t': Tables
      ensures ReadsAll(data, mode, pos, l, t, values, end, t') <==> ReadsAll(data, mode, next, l, t1, values[1..], end, t')
    {
      if ReadsAll(data, mode, pos, l, t, values, end, t') {
        var n: nat, u: Tables :| Reads(data, mode, pos, l, t, values[0].qname, Encode(values[0].cs), n, u)
          && ReadsAll(data, mode, n, l, u, values[1..], end, t');
        ReadsOnce(data, mode, pos, l, t, values[0].qname, Encode(values[0].cs), n, u, Encode(values[0].cs), next, t1);
      }
    }
  }

  lemma Same(data: seq<byte>, mode: InputMode, pos: nat, l: Limits, t: Tables, values: seq<Value>, next: nat, t1: Tables)
    requires values != []
    requires forall end: nat, t': Tables ::
               ReadsAll(data, mode, pos, l, t, values, end, t') <==> ReadsAll(data, mode, next, l, t1, values[1..], end, t')
    ensures (exists end: nat, t': Tables :: ReadsAll(data, mode, pos, l, t, values, end, t'))
       <==> (exists end: nat, t': Tables :: ReadsAll(data, mode, next, l, t1, values[1..], end, t'))
  {
    hide ReadsAll;
    if end: nat, t': Tables :| ReadsAll(data, mode, pos, l, t, values, end, t') {
      assert ReadsAll(data, mode, next, l, t1, values[1..], end, t');
    }
    if end: nat, t': Tables :| ReadsAll(data, mode, next, l, t1, values[1..], end, t') {
      assert ReadsAll(data, mode, pos, l, t, values, end, t');
    }
  }
}
