// When a replay succeeds and what it tells the sink, said of the whole sequence of events: which element an
// event stands in follows from starts and ends alone, and an element is nil by its last xsi:nil attribute.
module ExiReplay {
  import opened Common
  import opened ExiBits
  import opened ExiValues
  import opened ExiStrings
  import opened ExiChannels
  import opened ExiGrammars
  import ExiEvents
  import opened ExiReordered

  /** The start events of the elements open before event k, innermost last. */
  function OpenAt(events: seq<Event>, k: nat): (r: seq<nat>)
    requires k <= |events|
    ensures forall i :: 0 <= i < |r| ==> r[i] < k
  {
    if k == 0 then []
    else
      var open := OpenAt(events, k - 1);
      match events[k - 1].kind
      case StartElement => open + [k - 1]
      case EndElement => if open == [] then [] else open[..|open| - 1]
      case _ => open
  }

  /** Event k stands in the element that event e starts. */
  predicate StandsIn(events: seq<Event>, k: nat, e: nat)
    requires k <= |events|
  {
    var open := OpenAt(events, k);
    open != [] && open[|open| - 1] == e
  }

  /** http://www.w3.org/2001/XMLSchema-instance in octets. */
  const HTTP: seq<byte> := [0x68, 0x74, 0x74, 0x70, 0x3a, 0x2f, 0x2f, 0x77, 0x77, 0x77, 0x2e]
  const HOST: seq<byte> := [0x77, 0x33, 0x2e, 0x6f, 0x72, 0x67, 0x2f]
  const SCHEMA: seq<byte> := [0x32, 0x30, 0x30, 0x31, 0x2f, 0x58, 0x4d, 0x4c, 0x53, 0x63, 0x68, 0x65, 0x6d, 0x61, 0x2d]
  const INSTANCE: seq<byte> := [0x69, 0x6e, 0x73, 0x74, 0x61, 0x6e, 0x63, 0x65]
  const INSTANCE_URI: seq<byte> := HTTP + HOST + SCHEMA + INSTANCE

  /** Event k is an attribute named xsi:nil with a plain value. */
  predicate NilAttribute(e: Event) {
    e.kind == Attribute && e.qname == None && e.name.uri == INSTANCE_URI && e.name.local == [0x6e, 0x69, 0x6c]
  }

  /** The spellings of an XML Schema boolean: 1 and true, 0 and false. */
  predicate Denotes(text: Text, truth: bool) {
    if truth then text == [0x31] || text == [0x74, 0x72, 0x75, 0x65]
    else text == [0x30] || text == [0x66, 0x61, 0x6c, 0x73, 0x65]
  }

  /** Event j is an xsi:nil attribute of the element that event e starts. */
  predicate Sets(events: seq<Event>, j: nat, e: nat)
    requires j < |events|
  {
    NilAttribute(events[j]) && StandsIn(events, j, e)
  }

  /** The last xsi:nil attribute that e has before event k says true. */
  ghost predicate Nil(events: seq<Event>, values: seq<Text>, e: nat, k: nat)
    requires k <= |events| <= |values|
  {
    exists j: nat :: j < k && Sets(events, j, e) && Denotes(values[j], true) && NoneAfter(events, e, j, k)
  }

  ghost predicate NoneAfter(events: seq<Event>, e: nat, j: nat, k: nat)
    requires k <= |events|
  {
    forall i: nat :: j < i < k ==> !Sets(events, i, e)
  }

  /** What may stand in an element that is nil. */
  predicate NilAllows(kind: EventKind) {
    kind == Attribute || kind == NamespaceDeclaration || kind == EndElement
  }

  /** Event k breaks no rule. */
  ghost predicate Allowed(events: seq<Event>, values: seq<Text>, depth: nat, k: nat)
    requires k < |events| <= |values|
  {
    // every end has a start, and the depth is limited
    && (events[k].kind == EndElement ==> OpenAt(events, k) != [])
    && (events[k].kind == StartElement ==> |OpenAt(events, k)| < depth)
    // xsi:nil stands in an element and has one of the four spellings
    && (NilAttribute(events[k]) ==> OpenAt(events, k) != [] && exists truth :: Denotes(values[k], truth))
    // an element that is nil has no content
    && (forall e: nat :: StandsIn(events, k, e) && Nil(events, values, e, k) ==> NilAllows(events[k].kind))
    && events[k].kind != SelfContained
  }

  ghost predicate AllAllowed(events: seq<Event>, values: seq<Text>, depth: nat, n: nat)
    requires n <= |events| <= |values|
  {
    forall k: nat :: k < n ==> Allowed(events, values, depth, k)
  }

  /** The events the sink is told of: all but the bounds of the document. */
  function Told(events: seq<Event>, n: nat): (r: seq<nat>)
    requires n <= |events|
    ensures forall i :: 0 <= i < |r| ==> r[i] < n
  {
    if n == 0 then []
    else
      Told(events, n - 1) + if events[n - 1].kind == StartDocument || events[n - 1].kind == EndDocument then [] else [n - 1]
  }

  /** The sink is told of event e with the value sent, but for the spelling of xsi:nil. */
  ghost predicate ToldAs(e: Event, sent: Text, preserve: bool, r: Replayed) {
    && r.event == e
    && (if NilAttribute(e) && !preserve then
          exists truth :: Denotes(sent, truth) && r.value == if truth then [0x74, 0x72, 0x75, 0x65] else [0x66, 0x61, 0x6c, 0x73, 0x65]
        else r.value == sent)
  }

  ghost predicate Faithful(events: seq<Event>, values: seq<Text>, n: nat, preserve: bool, log: seq<Replayed>)
    requires n <= |events| <= |values|
  {
    && |log| == |Told(events, n)|
    && forall i :: 0 <= i < |log| ==> ToldAs(events[Told(events, n)[i]], values[Told(events, n)[i]], preserve, log[i])
  }

  //
  // The marks the replay keeps
  //

  /** The replay's marks are those of the elements open. */
  ghost predicate Marked(events: seq<Event>, values: seq<Text>, n: nat, nils: seq<bool>)
    requires n <= |events| <= |values|
  {
    && |nils| == |OpenAt(events, n)|
    && forall i :: 0 <= i < |nils| ==> (nils[i] <==> Nil(events, values, OpenAt(events, n)[i], n))
  }

  lemma {:induction false} OpenRises(events: seq<Event>, k: nat)
    requires k <= |events|
    ensures forall i, j :: 0 <= i < j < |OpenAt(events, k)| ==> OpenAt(events, k)[i] < OpenAt(events, k)[j]
  {
    if k > 0 { OpenRises(events, k - 1); }
  }

  /** Another event changes nothing for an element whose xsi:nil it is not. */
  lemma NilStays(events: seq<Event>, values: seq<Text>, e: nat, k: nat)
    requires k < |events| <= |values| && !Sets(events, k, e)
    ensures Nil(events, values, e, k + 1) <==> Nil(events, values, e, k)
  {
    hide Sets; hide Denotes;
    if Nil(events, values, e, k) {
      var j: nat :| j < k && Sets(events, j, e) && Denotes(values[j], true) && NoneAfter(events, e, j, k);
      assert NoneAfter(events, e, j, k + 1);
    }
    if Nil(events, values, e, k + 1) {
      var j: nat :| j < k + 1 && Sets(events, j, e) && Denotes(values[j], true) && NoneAfter(events, e, j, k + 1);
      assert NoneAfter(events, e, j, k);
    }
  }

  lemma NilSet(events: seq<Event>, values: seq<Text>, e: nat, k: nat)
    requires k < |events| <= |values| && Sets(events, k, e)
    ensures Nil(events, values, e, k + 1) <==> Denotes(values[k], true)
  {
    hide Sets; hide Denotes;
    assert NoneAfter(events, e, k, k + 1);
    if Nil(events, values, e, k + 1) {
      var j: nat :| j < k + 1 && Sets(events, j, e) && Denotes(values[j], true) && NoneAfter(events, e, j, k + 1);
      assert j == k;
    }
  }

  lemma SetsBehind(events: seq<Event>, j: nat, e: nat)
    requires j < |events| && Sets(events, j, e)
    ensures e < j
  {
  }

  /** An element just started is not nil. */
  lemma FreshNotNil(events: seq<Event>, values: seq<Text>, e: nat)
    requires e < |events| <= |values|
    ensures !Nil(events, values, e, e + 1)
  {
    if Nil(events, values, e, e + 1) {
      var j: nat :| j < e + 1 && Sets(events, j, e) && Denotes(values[j], true) && NoneAfter(events, e, j, e + 1);
      SetsBehind(events, j, e);
    }
  }

  lemma AsciiJoins(a: string, b: string)
    ensures Ascii(a + b) == Ascii(a) + Ascii(b)
  {
  }

  lemma HttpIs()
    ensures Ascii("http://www.") == HTTP
  {
  }

  lemma HostIs()
    ensures Ascii("w3.org/") == HOST
  {
  }

  lemma SchemaIs()
    ensures Ascii("2001/XMLSchema-") == SCHEMA
  {
  }

  lemma InstanceIs()
    ensures Ascii("instance") == INSTANCE
  {
  }

  lemma UriIs()
    ensures Ascii("http://www.w3.org/2001/XMLSchema-instance") == INSTANCE_URI
  {
    hide HTTP; hide HOST; hide SCHEMA; hide INSTANCE; hide Ascii;
    HttpIs();
    HostIs();
    SchemaIs();
    InstanceIs();
    AsciiJoins("http://www.", "w3.org/");
    AsciiJoins("http://www.w3.org/", "2001/XMLSchema-");
    AsciiJoins("http://www.w3.org/2001/XMLSchema-", "instance");
    assert "http://www." + "w3.org/" == "http://www.w3.org/";
    assert "http://www.w3.org/" + "2001/XMLSchema-" == "http://www.w3.org/2001/XMLSchema-";
    assert "http://www.w3.org/2001/XMLSchema-" + "instance" == "http://www.w3.org/2001/XMLSchema-instance";
  }

  lemma NamesAre(e: Event)
    ensures e.kind == Attribute ==> (NilAttribute(e) <==> e.qname.None? && IsNil(e.name))
  {
    hide INSTANCE_URI;
    UriIs();
    assert Ascii("nil") == [0x6e, 0x69, 0x6c];
  }

  lemma NilOfIs(value: Text, preserve: bool)
    ensures NilOf(value, preserve).Some? <==> exists truth :: Denotes(value, truth)
    ensures NilOf(value, preserve).Some? ==>
              var (truth, text) := NilOf(value, preserve).value;
              && Denotes(value, truth)
              && text == if preserve then value else if truth then [0x74, 0x72, 0x75, 0x65] else [0x66, 0x61, 0x6c, 0x73, 0x65]
    ensures !(Denotes(value, true) && Denotes(value, false))
  {
    assert Ascii("1") == [0x31] && Ascii("0") == [0x30];
    assert Ascii("true") == [0x74, 0x72, 0x75, 0x65] && Ascii("false") == [0x66, 0x61, 0x6c, 0x73, 0x65];
    assert Denotes(value, true) || Denotes(value, false) <==> exists truth :: Denotes(value, truth);
  }

  /** The innermost mark says whether the element event n stands in is nil. */
  lemma ForbidsIs(events: seq<Event>, values: seq<Text>, n: nat, nils: seq<bool>)
    requires n < |events| <= |values| && Marked(events, values, n, nils)
    ensures NilForbids(nils, events[n].kind)
        <==> !(forall e: nat :: StandsIn(events, n, e) && Nil(events, values, e, n) ==> NilAllows(events[n].kind))
  {
    hide Nil;
    var open := OpenAt(events, n);
    if nils != [] {
      assert nils[|nils| - 1] <==> Nil(events, values, open[|open| - 1], n);
      assert StandsIn(events, n, open[|open| - 1]);
    }
  }

  /** One event: it is replayed exactly when it is allowed, and the marks stay right. */
  lemma OneReplayed(events: seq<Event>, values: seq<Text>, n: nat, nils: seq<bool>, m: Manner)
    requires n < |events| <= |values| && Marked(events, values, n, nils)
    ensures ReplayOne(events[n], values[n], nils, m).Some? <==> Allowed(events, values, m.depth, n)
    ensures ReplayOne(events[n], values[n], nils, m).Some? ==>
              var r := ReplayOne(events[n], values[n], nils, m).value;
              && Marked(events, values, n + 1, r.1)
              && (if events[n].kind == StartDocument || events[n].kind == EndDocument then r.0 == []
                  else |r.0| == 1 && ToldAs(events[n], values[n], m.preserve, r.0[0]))
  {
    hide Nil; hide IsNil; hide NilOf; hide NilForbids; hide Denotes; hide INSTANCE_URI;
    ForbidsIs(events, values, n, nils);
    NamesAre(events[n]);
    NilOfIs(values[n], m.preserve);
    if ReplayOne(events[n], values[n], nils, m).Some? {
      MarksKept(events, values, n, nils, m);
    }
  }

  lemma MarksKept(events: seq<Event>, values: seq<Text>, n: nat, nils: seq<bool>, m: Manner)
    requires n < |events| <= |values| && Marked(events, values, n, nils) && ReplayOne(events[n], values[n], nils, m).Some?
    ensures Marked(events, values, n + 1, ReplayOne(events[n], values[n], nils, m).value.1)
  {
    hide Nil; hide IsNil; hide NilOf; hide NilForbids; hide Denotes; hide INSTANCE_URI;
    NamesAre(events[n]);
    NilOfIs(values[n], m.preserve);
    OpenRises(events, n);
    var nils' := ReplayOne(events[n], values[n], nils, m).value.1;
    var open, open' := OpenAt(events, n), OpenAt(events, n + 1);
    forall i | 0 <= i < |nils'|
      ensures nils'[i] <==> Nil(events, values, open'[i], n + 1)
    {
      if i < |open| {
        assert nils[i] <==> Nil(events, values, open[i], n);
        if Sets(events, n, open[i]) {
          NilSet(events, values, open[i], n);
        } else {
          NilStays(events, values, open[i], n);
        }
      } else {
        FreshNotNil(events, values, n);
      }
    }
  }

  /**
   * A replay succeeds exactly when no event breaks a rule; the sink is then told of every event in order, with the
   * value sent, xsi:nil with a spelling of the same truth value.
   */
  lemma {:induction false} ReplayExactly(events: seq<Event>, values: seq<Text>, m: Manner, n: nat)
    requires n <= |events| && |events| == |values|
    ensures ReplayOf(events, values, [], m, n).Some? <==> AllAllowed(events, values, m.depth, n)
    ensures ReplayOf(events, values, [], m, n).Some? ==>
              var r := ReplayOf(events, values, [], m, n).value;
              Marked(events, values, n, r.1) && Faithful(events, values, n, m.preserve, r.0)
  {
    hide Nil; hide ReplayOne; hide Allowed; hide ToldAs;
    if n > 0 {
      ReplayExactly(events, values, m, n - 1);
      if ReplayOf(events, values, [], m, n - 1).Some? {
        hide Marked;
        OneReplayed(events, values, n - 1, ReplayOf(events, values, [], m, n - 1).value.1, m);
      }
    }
  }

  /**
   * The whole body again: what was written in reordered form is decoded exactly when none of its events breaks a
   * rule, and the sink is told of its events in order with their original values.
   */
  lemma BodyReplayed(src: Source, l: Limits, m: Manner, start: State, blocks: seq<Block>, texts: seq<Texts>, w: Writer, w': Writer)
    requires |blocks| == |texts| && start.nils == [] && start.log == []
    requires forall k :: 0 <= k < |blocks| ==> |blocks[k].events| == |texts[k]| <= |start.values| && AllSendable(texts[k])
    requires Follows(w, start) && BodyStands(src, l, w, blocks, texts, |blocks|, w')
    requires |start.tables.history| + EventsIn(blocks, |blocks|) <= 0x8000_0000
    ensures var r := BodyRead(src, l, m, start, blocks, |blocks|);
      var events, values := AllEvents(blocks, |blocks|), AllValues(blocks, texts, |blocks|);
      && (r.Some? <==> AllAllowed(events, values, m.depth, |events|))
      && (r.Some? ==> Faithful(events, values, |events|, m.preserve, r.value.log))
  {
    hide BodyRead; hide BodyStands; hide AllEvents; hide AllValues; hide EventsIn; hide AllSendable; hide ReplayOf;
    hide AllAllowed; hide Faithful;
    BodyRestored(src, l, m, start, blocks, texts, |blocks|, w, w');
    var events, values := AllEvents(blocks, |blocks|), AllValues(blocks, texts, |blocks|);
    ReplayExactly(events, values, m, |events|);
    if BodyRead(src, l, m, start, blocks, |blocks|).Some? {
      assert [] + ReplayOf(events, values, [], m, |events|).value.0 == ReplayOf(events, values, [], m, |events|).value.0;
    }
  }
}
