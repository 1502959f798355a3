// A whole body in reordered form (Efficient XML Interchange 1.0, section 9): block after block, the events
// of the structure are recorded, their values read channel by channel, and the events replayed in order.
// A replay keeps track of the open elements that xsi:nil has marked.
module ExiReordered {
  import opened Common
  import opened ExiBits
  import opened ExiValues
  import opened ExiStrings
  import opened ExiChannels
  import opened ExiGrammars
  import ExiEvents
  import opened Utf8

  /** Where a body stands: in one input, or in inflated streams. */
  datatype Source = Single(data: seq<byte>, mode: InputMode) | Streams(inflated: seq<byte>, spans: seq<Span>)

  /**
   * What the structure says of an event: its kind and name, the channel its value is in, and what it carries
   * with it instead, a value of its own or a qualified name.
   */
  datatype Event = Event(kind: EventKind, name: ExiEvents.Name, key: Option<nat>, plain: Text, qname: Option<ExiEvents.Name>)

  function KeysOf(events: seq<Event>): (r: Keys)
    ensures |r| == |events|
  {
    seq(|events|, i requires 0 <= i < |events| => events[i].key)
  }

  /** What the structure of one block yields, and where it ends. */
  datatype Block = Block(events: seq<Event>, end: nat)

  /** A replayed event and the value the sink is given with it. */
  datatype Replayed = Replayed(event: Event, value: Text)

  /** Between blocks: value slots, position in the one input, next stream, tables, nil marks of the open elements, replay. */
  datatype State = State(values: seq<Text>, pos: nat, next: nat, tables: Tables, nils: seq<bool>, log: seq<Replayed>)

  /** How many elements may be open, and whether the spelling of values is kept. */
  datatype Manner = Manner(depth: nat, preserve: bool)

  /** The first n slots are cleared for new records. */
  function Blank(values: seq<Text>, n: nat): (r: seq<Text>)
    requires n <= |values|
    ensures |r| == |values| && (forall i :: 0 <= i < n ==> r[i] == []) && r[n..] == values[n..]
  {
    seq(n, _ => []) + values[n..]
  }

  //
  // Replay
  //

  function Ascii(s: string): Text {
    seq(|s|, i requires 0 <= i < |s| => if s[i] as int < 0x80 then s[i] as int else 0)
  }

  predicate IsNil(name: ExiEvents.Name) {
    name.uri == Ascii("http://www.w3.org/2001/XMLSchema-instance") && name.local == Ascii("nil")
  }

  /** The truth value of xsi:nil, and the text it is written with. */
  function NilOf(value: Text, preserve: bool): Option<(bool, Text)> {
    if value == Ascii("1") || value == Ascii("true") then Some((true, if preserve then value else Ascii("true")))
    else if value == Ascii("0") || value == Ascii("false") then Some((false, if preserve then value else Ascii("false")))
    else None
  }

  /** A nil element has attributes, namespace declarations and its end only. */
  predicate NilForbids(nils: seq<bool>, kind: EventKind) {
    nils != [] && nils[|nils| - 1] && kind !in {Attribute, NamespaceDeclaration, EndElement}
  }

  /** One event replayed: what the sink is given, and the nil marks then; None when it is refused. */
  function ReplayOne(e: Event, value: Text, nils: seq<bool>, m: Manner): Option<(seq<Replayed>, seq<bool>)> {
    var n := |nils|;
    if NilForbids(nils, e.kind) then None
    else
      match e.kind
      case StartElement => if n >= m.depth then None else Some(([Replayed(e, value)], nils + [false]))
      case EndElement => if n == 0 then None else Some(([Replayed(e, value)], nils[..n - 1]))
      case Attribute =>
        if e.qname.None? && IsNil(e.name) then
          if n == 0 then None
          else
            match NilOf(value, m.preserve)
            case None => None
            case Some(nil) => Some(([Replayed(e, nil.1)], nils[n - 1 := nil.0]))
        else Some(([Replayed(e, value)], nils))
      case SelfContained => None
      case StartDocument => Some(([], nils))
      case EndDocument => Some(([], nils))
      case _ => Some(([Replayed(e, value)], nils))
  }

  /** The first n events replayed with these values. */
  function ReplayOf(events: seq<Event>, values: seq<Text>, nils: seq<bool>, m: Manner, n: nat): Option<(seq<Replayed>, seq<bool>)>
    requires n <= |events| && n <= |values|
  {
    if n == 0 then Some(([], nils))
    else
      match ReplayOf(events, values, nils, m, n - 1)
      case None => None
      case Some(done) =>
        match ReplayOne(events[n - 1], values[n - 1], done.1, m)
        case None => None
        case Some(r) => Some((done.0 + r.0, r.1))
  }

  /** The value of an event: what its channel held, or what it carries itself. */
  function ValuesFor(events: seq<Event>, slots: seq<Text>): (r: seq<Text>)
    requires |events| <= |slots|
    ensures |r| == |events|
  {
    seq(|events|, i requires 0 <= i < |events| => if events[i].key.Some? then slots[i] else events[i].plain)
  }

  predicate HasStream(src: Source, next: nat) {
    src.Streams? && next < |src.spans|
  }

  /** The stream of a block's structure; a body out of streams has an empty one. */
  function StructureOf(src: Source, pos: nat, next: nat): Option<(seq<byte>, InputMode, nat)> {
    match src
    case Single(data, mode) => Some((data, mode, pos))
    case Streams(inflated, spans) =>
      if next >= |spans| then Some(([], ByteAligned, 0))
      else
        match StreamAt(inflated, spans, next)
        case None => None
        case Some(data) => Some((data, ByteAligned, 0))
  }

  predicate Together(src: Source, keys: Keys) {
    src.Single? || Channelled(keys) <= SMALL_CHANNEL
  }

  /** One block, by itself: its values are read and its events replayed. */
  ghost function BlockRead(src: Source, l: Limits, m: Manner, st: State, b: Block): (r: Option<State>)
    ensures r.Some? ==> |r.value.values| == |st.values|
  {
    hide PlanRead; hide SplitRead; hide StreamAt;
    if |b.events| > |st.values| then None
    else
      match StructureOf(src, st.pos, st.next)
      case None => None
      case Some(s) =>
        if !(s.2 <= b.end <= 8 * |s.0|) then None
        else
          var has := HasStream(src, st.next);
          var next := st.next + if has then 1 else 0;
          var from := Progress(Blank(st.values, |KeysOf(b.events)|), b.end, st.tables);
          PlanIsOk(KeysOf(b.events), Order(KeysOf(b.events)), |from.values|);
          var read :=
            if Together(src, KeysOf(b.events)) then
              PlanRead(s.0, s.1, l, from, KeysOf(b.events), Plan(KeysOf(b.events), Order(KeysOf(b.events))))
            else SplitRead(src.inflated, src.spans, next, l, from.(pos := 0), KeysOf(b.events));
          match read
          case None => None
          case Some(p) =>
            if has && !AtEnd(s.0, if Together(src, KeysOf(b.events)) then p.pos else b.end) then None
            else
              match ReplayOf(b.events, ValuesFor(b.events, p.values), st.nils, m, |b.events|)
              case None => None
              case Some(replayed) =>
                Some(State(p.values, if Together(src, KeysOf(b.events)) then p.pos else b.end,
                           if Together(src, KeysOf(b.events)) then next else next + StreamsOf(KeysOf(b.events)),
                           p.tables, replayed.1, st.log + replayed.0))
  }

  function StreamsOf(keys: Keys): nat {
    ExiChannels.Streams(keys)
  }

  /** The first n blocks of a body. */
  ghost function BodyRead(src: Source, l: Limits, m: Manner, start: State, blocks: seq<Block>, n: nat): (r: Option<State>)
    requires n <= |blocks|
    ensures r.Some? ==> |r.value.values| == |start.values|
  {
    hide BlockRead;
    if n == 0 then Some(start)
    else
      match BodyRead(src, l, m, start, blocks, n - 1)
      case None => None
      case Some(st) => BlockRead(src, l, m, st, blocks[n - 1])
  }

  lemma {:induction false} BodyStops(src: Source, l: Limits, m: Manner, start: State, blocks: seq<Block>, k: nat, n: nat)
    requires k <= n <= |blocks| && BodyRead(src, l, m, start, blocks, k) == None
    ensures BodyRead(src, l, m, start, blocks, n) == None
    decreases n
  {
    hide BlockRead;
    if k < n { BodyStops(src, l, m, start, blocks, k, n - 1); }
  }

  //
  // The loop
  //

  lemma BlankNext(values: seq<Text>, n: nat)
    requires n < |values|
    ensures Blank(values, n)[n := []] == Blank(values, n + 1)
  {
    var a, b := Blank(values, n)[n := []], Blank(values, n + 1);
    forall i | 0 <= i < |values|
      ensures a[i] == b[i]
    {
      if i > n {
        assert Blank(values, n)[i] == Blank(values, n)[n..][i - n] == values[n..][i - n];
        assert b[i] == b[n + 1..][i - n - 1] == values[n + 1..][i - n - 1];
      }
    }
  }

  /** Record the events of a block. */
  method Record(reordered: ReorderedBlock, keys: Keys) returns (status: Status)
    requires reordered.Valid()
    modifies reordered, reordered.events, reordered.channels
    ensures reordered.Valid()
    ensures status == Success <==> |keys| <= reordered.events.Length
    ensures status == Success ==>
              reordered.keys == keys && ValuesOf(reordered.events[..]) == Blank(old(ValuesOf(reordered.events[..])), |keys|)
  {
    hide Threaded; hide Blank;
    reordered.Clear();
    NothingBlank(ValuesOf(reordered.events[..]));
    for index := 0 to |keys|
      invariant reordered.Valid() && reordered.keys == keys[..index] && index <= reordered.events.Length
      invariant ValuesOf(reordered.events[..]) == Blank(old(ValuesOf(reordered.events[..])), index)
    {
      status := reordered.AddRecord(keys[index]);
      if status != Success {
        return;
      }
      BlankNext(old(ValuesOf(reordered.events[..])), index);
      assert keys[..index + 1] == keys[..index] + [keys[index]];
    }
    assert keys[..|keys|] == keys;
    status := Success;
  }

  lemma NothingBlank(values: seq<Text>)
    ensures Blank(values, 0) == values
  {
  }

  /** Hand the events of the block on, in their order. */
  method Replay(reordered: ReorderedBlock, events: seq<Event>, nils: seq<bool>, m: Manner, log: seq<Replayed>)
    returns (status: Status, nils': seq<bool>, longer: seq<Replayed>)
    requires reordered.Valid() && |events| <= reordered.events.Length
    ensures var r := ReplayOf(events, ValuesFor(events, ValuesOf(reordered.events[..])), nils, m, |events|);
      && (status == Success <==> r.Some?)
      && (status == Success ==> longer == log + r.value.0 && nils' == r.value.1)
  {
    hide Threaded; hide ReplayOne;
    longer, nils' := log, nils;
    ghost var values := ValuesFor(events, ValuesOf(reordered.events[..]));
    for index := 0 to |events|
      invariant ReplayOf(events, values, nils, m, index).Some?
      invariant longer == log + ReplayOf(events, values, nils, m, index).value.0
      invariant nils' == ReplayOf(events, values, nils, m, index).value.1
    {
      var value := if events[index].key.Some? then reordered.events[index].value else events[index].plain;
      assert value == values[index];
      var one := ReplayOne(events[index], value, nils', m);
      if one.None? {
        ReplayStops(events, values, nils, m, index + 1, |events|);
        return InvalidNetworkResponse, nils', longer;
      }
      longer, nils' := longer + one.value.0, one.value.1;
    }
    status := Success;
  }

  lemma {:induction false} ReplayStops(events: seq<Event>, values: seq<Text>, nils: seq<bool>, m: Manner, k: nat, n: nat)
    requires k <= n <= |events| && n <= |values| && ReplayOf(events, values, nils, m, k).None?
    ensures ReplayOf(events, values, nils, m, n).None?
    decreases n
  {
    hide ReplayOne;
    if k < n { ReplayStops(events, values, nils, m, k, n - 1); }
  }

  ghost function StateOf(reordered: ReorderedBlock, table: ValueTable, pos: nat, next: nat, nils: seq<bool>, log: seq<Replayed>): State
    reads reordered, reordered.events, table, table.literals
  {
    State(ValuesOf(reordered.events[..]), pos, next, TablesOf(table), nils, log)
  }

  /** One block. The structure reader is represented by the events it yields and the position it reaches. */
  method DecodeBlock(src: Source, m: Manner, reordered: ReorderedBlock, table: ValueTable, b: Block, pos: nat, next: nat,
                     nils: seq<bool>, log: seq<Replayed>)
    returns (status: Status, pos': nat, next': nat, nils': seq<bool>, log': seq<Replayed>)
    requires reordered.Valid() && table.Valid() && (src.Single? ==> pos <= 8 * |src.data|)
    modifies reordered, reordered.events, reordered.channels, table, table.literals, table.globalEntries, table.localEntries
    ensures reordered.Valid() && table.Valid() && (status == Success && src.Single? ==> pos' <= 8 * |src.data|)
    ensures var r := BlockRead(src, LimitsOf(table), m, old(StateOf(reordered, table, pos, next, nils, log)), b);
      if status == Success then r == Some(StateOf(reordered, table, pos', next', nils', log')) else r == None
  {
    hide Threaded; hide Members; hide Order; hide Ring; hide PlanRead; hide PlanOk; hide Plan; hide SplitRead; hide StreamAt; hide AtEnd;
    hide Blank; hide Channelled; hide ReplayOf; hide ValuesFor;
    pos', next', nils', log' := pos, next, nils, log;
    ghost var before := ValuesOf(reordered.events[..]);
    var structure := StructureOf(src, pos, next);
    if structure.None? {
      return InvalidNetworkResponse, pos', next', nils', log';
    }
    var (data, mode, from) := structure.value;
    var hasStructureStream := HasStream(src, next);
    if hasStructureStream {
      next' := next + 1;
    }
    if b.end < from || b.end > 8 * |data| {
      return InvalidNetworkResponse, pos', next', nils', log';
    }
    status := Record(reordered, KeysOf(b.events));
    if status != Success {
      return;
    }
    PlanIsOk(KeysOf(b.events), Order(KeysOf(b.events)), |before|);
    var input := new ExiInput(data, mode, b.end);
    var inflated, spans := if src.Streams? then src.inflated else [], if src.Streams? then src.spans else [];
    status, next' := reordered.ReadBlockValues(input, src.Streams?, inflated, spans, next', table);
    if status != Success {
      return;
    }
    if hasStructureStream && !AtEnd(data, input.bitOffset) {
      return InvalidNetworkResponse, pos', next', nils', log';
    }
    pos' := input.bitOffset;
    status, nils', log' := Replay(reordered, b.events, nils, m, log);
  }

  /** A whole body: it must end with its last stream. */
  ghost function WholeRead(src: Source, l: Limits, m: Manner, start: State, blocks: seq<Block>): Option<State> {
    match BodyRead(src, l, m, start, blocks, |blocks|)
    case None => None
    case Some(st) => if src.Streams? && st.next != |src.spans| then None else Some(st)
  }

  method DecodeBody(src: Source, m: Manner, reordered: ReorderedBlock, table: ValueTable, blocks: seq<Block>, initial: nat)
    returns (status: Status, pos: nat, next: nat, nils: seq<bool>, log: seq<Replayed>)
    requires reordered.Valid() && table.Valid() && (src.Single? ==> initial <= 8 * |src.data|)
    modifies reordered, reordered.events, reordered.channels, table, table.literals, table.globalEntries, table.localEntries
    ensures reordered.Valid() && table.Valid()
    ensures var r := WholeRead(src, LimitsOf(table), m, old(StateOf(reordered, table, initial, 0, [], [])), blocks);
      if status == Success then r == Some(StateOf(reordered, table, pos, next, nils, log)) else r == None
  {
    hide Threaded; hide Ring; hide BlockRead; hide StringTable.Valid;
    pos, next, nils, log := initial, 0, [], [];
    ghost var l, start := LimitsOf(table), StateOf(reordered, table, initial, 0, [], []);
    for n := 0 to |blocks|
      invariant reordered.Valid() && table.Valid() && (src.Single? ==> pos <= 8 * |src.data|)
      invariant BodyRead(src, l, m, start, blocks, n) == Some(StateOf(reordered, table, pos, next, nils, log))
    {
      status, pos, next, nils, log := DecodeBlock(src, m, reordered, table, blocks[n], pos, next, nils, log);
      if status != Success {
        BodyStops(src, l, m, start, blocks, n + 1, |blocks|);
        return;
      }
    }
    status := if src.Streams? && next != |src.spans| then InvalidNetworkResponse else Success;
  }

  //
  // The writer's side
  //

  type Texts = seq<seq<CodePoint>>

  /** The values of a block's events as they were written. */
  function Originals(events: seq<Event>, texts: Texts): (r: seq<Text>)
    requires |events| == |texts|
    ensures |r| == |events|
  {
    seq(|events|, i requires 0 <= i < |events| => if events[i].key.Some? then Encode(texts[i]) else events[i].plain)
  }

  /** The events of the first n blocks, one block after the other, and their values. */
  function AllEvents(blocks: seq<Block>, n: nat): seq<Event>
    requires n <= |blocks|
  {
    if n == 0 then [] else AllEvents(blocks, n - 1) + blocks[n - 1].events
  }

  function AllValues(blocks: seq<Block>, texts: seq<Texts>, n: nat): (r: seq<Text>)
    requires n <= |blocks| == |texts| && forall k :: 0 <= k < |blocks| ==> |blocks[k].events| == |texts[k]|
    ensures |r| == |AllEvents(blocks, n)|
  {
    if n == 0 then [] else AllValues(blocks, texts, n - 1) + Originals(blocks[n - 1].events, texts[n - 1])
  }

  /** Where the writer stands between blocks. */
  datatype Writer = Writer(pos: nat, next: nat, tables: Tables)

  /** The values of the block stand where a writer puts them, and the writer moves on. */
  ghost predicate BlockStands(src: Source, l: Limits, w: Writer, b: Block, texts: Texts, w': Writer)
    requires |b.events| == |texts|
  {
    hide PlanWritten; hide SplitStands; hide StreamAt;
    var structure := StructureOf(src, w.pos, w.next);
    var has := HasStream(src, w.next);
    var next := w.next + if has then 1 else 0;
    PlanIsOk(KeysOf(b.events), Order(KeysOf(b.events)), |texts|);
    && structure.Some? && structure.value.2 <= b.end <= 8 * |structure.value.0|
    && (if Together(src, KeysOf(b.events)) then
          var plan := Plan(KeysOf(b.events), Order(KeysOf(b.events)));
          var written := PlanWritten(structure.value.1, l, w.tables, KeysOf(b.events), plan, texts);
          && written.Some? && Stand(structure.value.0, b.end, written.value.0) && Aligned(structure.value.1, b.end)
          && w' == Writer(b.end + |written.value.0|, next, written.value.1)
          && (has ==> b.end + |written.value.0| == 8 * |structure.value.0|)
        else
          && SplitStands(src.inflated, src.spans, next, l, w.tables, KeysOf(b.events), texts, w'.tables)
          && w'.pos == b.end && w'.next == next + StreamsOf(KeysOf(b.events))
          && (has ==> b.end == 8 * |structure.value.0|))
  }

  ghost predicate BodyStands(src: Source, l: Limits, w: Writer, blocks: seq<Block>, texts: seq<Texts>, n: nat, w': Writer)
    requires n <= |blocks| == |texts| && forall k :: 0 <= k < |blocks| ==> |blocks[k].events| == |texts[k]|
  {
    hide BlockStands;
    if n == 0 then w' == w
    else
      var m, b, t := n - 1, blocks[n - 1], texts[n - 1];
      exists mid: Writer :: BodyStands(src, l, w, blocks, texts, m, mid) && BlockStands(src, l, mid, b, t, w')
  }

  /** How many values the first n blocks can add to the tables. */
  function EventsIn(blocks: seq<Block>, n: nat): nat
    requires n <= |blocks|
  {
    if n == 0 then 0 else EventsIn(blocks, n - 1) + |blocks[n - 1].events|
  }

  predicate Follows(w: Writer, st: State) {
    w.pos == st.pos && w.next == st.next && w.tables == st.tables
  }

  lemma OrderPlanBounded(keys: Keys)
    ensures |Plan(keys, Order(keys))| <= |keys|
  {
    hide Order; hide Plan;
    EachValueOnce(keys);
    var plan := Plan(keys, Order(keys));
    forall k | 0 <= k < |plan|
      ensures plan[k] < |keys|
    {
      assert plan[k] in plan;
    }
    DistinctBounded(plan, |keys|);
  }

  /** Replaying goes on behind a first part as it went on behind any events that left the same nil marks. */
  lemma {:induction false} ReplayFirst(a: seq<Event>, b: seq<Event>, u: seq<Text>, v: seq<Text>, nils: seq<bool>, m: Manner, n: nat)
    requires |a| == |u| && |b| == |v| && n <= |a|
    ensures ReplayOf(a + b, u + v, nils, m, n) == ReplayOf(a, u, nils, m, n)
  {
    hide ReplayOne;
    if n > 0 { ReplayFirst(a, b, u, v, nils, m, n - 1); }
  }

  lemma {:induction false} ReplayJoin(a: seq<Event>, b: seq<Event>, u: seq<Text>, v: seq<Text>, nils: seq<bool>, m: Manner, k: nat)
    requires |a| == |u| && |b| == |v| && k <= |b|
    ensures var all := ReplayOf(a + b, u + v, nils, m, |a| + k);
      match ReplayOf(a, u, nils, m, |a|)
      case None => all.None?
      case Some(first) =>
        match ReplayOf(b, v, first.1, m, k)
        case None => all.None?
        case Some(second) => all == Some((first.0 + second.0, second.1))
  {
    hide ReplayOne;
    if k == 0 {
      ReplayFirst(a, b, u, v, nils, m, |a|);
      if ReplayOf(a, u, nils, m, |a|).Some? {
        var first := ReplayOf(a, u, nils, m, |a|).value;
        assert first.0 + [] == first.0;
      }
    } else {
      ReplayJoin(a, b, u, v, nils, m, k - 1);
      assert (a + b)[|a| + k - 1] == b[k - 1] && (u + v)[|a| + k - 1] == v[k - 1];
      match ReplayOf(a, u, nils, m, |a|)
      case None =>
      case Some(first) =>
        match ReplayOf(b, v, first.1, m, k - 1)
        case None =>
        case Some(before) =>
          match ReplayOne(b[k - 1], v[k - 1], before.1, m)
          case None =>
          case Some(last) => Appends(first.0, before.0, last.0);
    }
  }

  /** One block is restored: its events are replayed with their own values. */
  lemma BlockReplays(src: Source, l: Limits, m: Manner, st: State, b: Block, texts: Texts, w: Writer, w': Writer)
    requires |b.events| == |texts| && |b.events| <= |st.values| && AllSendable(texts) && Follows(w, st)
    requires |st.tables.history| + |b.events| <= 0x8000_0000 && BlockStands(src, l, w, b, texts, w')
    ensures var r, original := BlockRead(src, l, m, st, b), ReplayOf(b.events, Originals(b.events, texts), st.nils, m, |b.events|);
      && (r.Some? <==> original.Some?)
      && (r.Some? ==>
            && Follows(w', r.value) && r.value.log == st.log + original.value.0 && r.value.nils == original.value.1
            && |r.value.tables.history| <= |st.tables.history| + |b.events|)
  {
    hide PlanRead; hide SplitRead; hide PlanWritten; hide SplitStands; hide StreamAt; hide AllSendable; hide Order; hide Plan;
    hide Blank; hide Encode; hide Stand; hide ReplayOf; hide ValuesFor; hide Originals;
    var s := StructureOf(src, st.pos, st.next).value;
    var keys := KeysOf(b.events);
    var from := Progress(Blank(st.values, |keys|), b.end, st.tables);
    PlanIsOk(keys, Order(keys), |texts|);
    PlanIsOk(keys, Order(keys), |from.values|);
    OrderPlanBounded(keys);
    if Together(src, keys) {
      BlockRestored(s.0, s.1, l, from, keys, texts);
      PlanInverts(s.0, s.1, l, from, keys, Plan(keys, Order(keys)), texts);
      SameValues(b.events, texts, from.values, PlanRead(s.0, s.1, l, from, keys, Plan(keys, Order(keys))).value.values);
    } else {
      var next := st.next + if HasStream(src, st.next) then 1 else 0;
      SplitRestored(src.inflated, src.spans, next, l, from.(pos := 0), keys, texts, w'.tables);
      SplitGrows(src.inflated, src.spans, next, l, from.(pos := 0), keys, texts, w'.tables);
      SameValues(b.events, texts, from.values, SplitRead(src.inflated, src.spans, next, l, from.(pos := 0), keys).value.values);
    }
  }

  lemma SameValues(events: seq<Event>, texts: Texts, before: seq<Text>, after: seq<Text>)
    requires |events| == |texts| && |events| <= |before| == |after|
    requires forall i: nat :: i < |events| ==> after[i] == if KeysOf(events)[i].Some? then Encode(texts[i]) else before[i]
    ensures ValuesFor(events, after) == Originals(events, texts)
  {
    hide Encode;
    forall i: nat | i < |events|
      ensures ValuesFor(events, after)[i] == Originals(events, texts)[i]
    {
      assert after[i] == if KeysOf(events)[i].Some? then Encode(texts[i]) else before[i];
    }
  }

  /**
   * The whole body: what was written block after block, each block's values channel by channel, is decoded
   * exactly when the original events with the original values can be replayed at all, and is then replayed
   * as these, in the original order, across all blocks.
   */
  lemma {:induction false} BodyRestored(src: Source, l: Limits, m: Manner, start: State, blocks: seq<Block>, texts: seq<Texts>, n: nat,
                                        w: Writer, w': Writer)
    requires n <= |blocks| == |texts|
    requires forall k :: 0 <= k < |blocks| ==> |blocks[k].events| == |texts[k]| <= |start.values| && AllSendable(texts[k])
    requires Follows(w, start) && BodyStands(src, l, w, blocks, texts, n, w')
    requires |start.tables.history| + EventsIn(blocks, n) <= 0x8000_0000
    ensures var r := BodyRead(src, l, m, start, blocks, n);
      var original := ReplayOf(AllEvents(blocks, n), AllValues(blocks, texts, n), start.nils, m, |AllEvents(blocks, n)|);
      && (r.Some? <==> original.Some?)
      && (r.Some? ==>
            && Follows(w', r.value) && r.value.log == start.log + original.value.0 && r.value.nils == original.value.1
            && |r.value.tables.history| <= |start.tables.history| + EventsIn(blocks, n))
    decreases n
  {
    hide BlockRead; hide BlockStands; hide Originals; hide AllSendable; hide ReplayOne;
    if n == 0 {
      assert start.log + [] == start.log;
    } else {
      hide ReplayOf;
      var k, b, t := n - 1, blocks[n - 1], texts[n - 1];
      var mid: Writer :| BodyStands(src, l, w, blocks, texts, k, mid) && BlockStands(src, l, mid, b, t, w');
      BodyRestored(src, l, m, start, blocks, texts, k, w, mid);
      ReplayJoin(AllEvents(blocks, k), b.events, AllValues(blocks, texts, k), Originals(b.events, t), start.nils, m, |b.events|);
      if BodyRead(src, l, m, start, blocks, k).Some? {
        var st := BodyRead(src, l, m, start, blocks, k).value;
        BlockReplays(src, l, m, st, b, t, mid, w');
        if BlockRead(src, l, m, st, b).Some? {
          Appends(start.log, ReplayOf(AllEvents(blocks, k), AllValues(blocks, texts, k), start.nils, m, |AllEvents(blocks, k)|).value.0,
                  ReplayOf(b.events, Originals(b.events, t), st.nils, m, |b.events|).value.0);
        }
      }
    }
  }

  lemma Appends(a: seq<Replayed>, b: seq<Replayed>, c: seq<Replayed>)
    ensures a + b + c == a + (b + c)
  {
  }
}
