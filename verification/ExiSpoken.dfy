// The event codes of the encoder, read by the decoder: the lists both sides keep stay the same.
module ExiSpoken {
  import opened Common
  import opened ExiBits
  import opened ExiGrammars
  import opened ExiEvents
  import D = ExiDocument

  /** Where the input is too long for the choices of 31 bits, nothing is said. */
  const LONGEST: nat := 0x7fff_fff0

  function KindOf(place: D.Place): GrammarKind {
    match place
    case Tag => StartTagContent
    case Inside => ElementContent
    case Top => FragmentContent
  }

  function EventOf(x: D.Said): EventKind {
    match x
    case Start(_) => StartElement
    case Attr(_) => Attribute
    case Chars => Characters
    case End => EndElement
  }

  function NameIn(x: D.Said): nat {
    match x
    case Start(qname) => qname
    case Attr(qname) => qname
    case _ => NO_NAME
  }

  /** The decoder's record of x. */
  function Stored(key: D.Key, x: D.Said): Learned {
    Learned(key.owner, KindOf(key.place), EventOf(x), NameIn(x), ProductionFor(KindOf(key.place), EventOf(x)))
  }

  /** The decoder's list for one owner and grammar is the encoder's. */
  predicate ListIs(ps: seq<Learned>, lists: D.Lists, key: D.Key) {
    var l := Listed(ps, key.owner, KindOf(key.place));
    |l| == |D.Of(lists, key)| && forall k :: 0 <= k < |l| ==> l[k] == Stored(key, D.Of(lists, key)[k])
  }

  ghost predicate Matches(ps: seq<Learned>, lists: D.Lists) {
    forall key: D.Key :: ListIs(ps, lists, key)
  }

  lemma NothingSaid()
    ensures Matches([], map[])
  {
  }

  lemma {:induction false} InList(ps: seq<Learned>, i: nat, owner: nat, grammar: GrammarKind)
    requires i < |ps| && Belongs(ps[i], owner, grammar)
    ensures ps[i] in Listed(ps, owner, grammar)
    decreases |ps|
  {
    if i < |ps| - 1 { InList(ps[..|ps| - 1], i, owner, grammar); }
  }

  lemma KeyInList(ps: seq<Learned>, lists: D.Lists, key: D.Key, x: D.Said, i: nat)
    requires ListIs(ps, lists, key) && i < |ps| && SameKey(ps[i], Stored(key, x))
    ensures x in D.Of(lists, key)
  {
    hide Listed;
    InList(ps, i, key.owner, KindOf(key.place));
    var l := Listed(ps, key.owner, KindOf(key.place));
    var k :| 0 <= k < |l| && l[k] == ps[i];
    assert D.Of(lists, key)[k] == x;
  }

  /** What is said for the first time joins both lists at the front and no other. */
  lemma LearnMatches(ps: seq<Learned>, lists: D.Lists, key: D.Key, x: D.Said)
    requires Matches(ps, lists) && x !in D.Of(lists, key)
    ensures WithLearned(ps, Stored(key, x)) == ps + [Stored(key, x)]
    ensures Matches(ps + [Stored(key, x)], lists[key := [x] + D.Of(lists, key)])
  {
    hide Listed; hide ProductionFor;
    var p := Stored(key, x);
    assert ListIs(ps, lists, key);
    forall i | 0 <= i < |ps|
      ensures !SameKey(ps[i], p)
    {
      if SameKey(ps[i], p) {
        KeyInList(ps, lists, key, x, i);
      }
    }
    var lists' := lists[key := [x] + D.Of(lists, key)];
    forall other: D.Key
      ensures ListIs(ps + [p], lists', other)
    {
      LearnPrepends(ps, p, other.owner, KindOf(other.place));
      assert ListIs(ps, lists, other);
      assert D.Of(lists', other) == if other == key then [x] + D.Of(lists, key) else D.Of(lists, other);
      assert Belongs(p, other.owner, KindOf(other.place)) <==> other == key;
    }
  }

  //
  // Parts
  //

  lemma PartLength(mode: InputMode, v: nat, of: nat)
    ensures of >= 2 ==> |ChoiceWritten(mode, v, of)| >= 1
    ensures of >= 3 ==> |ChoiceWritten(mode, v, of)| >= 2
  {
    WidthIsLeast(of);
    assert Pow2(0) == 1 && Pow2(1) == 2;
  }

  /** The first part of a code is read as the choice it is; the other parts stand behind it. */
  lemma PartReads(pen: D.Pen, data: seq<byte>, pos: nat, parts: seq<D.Part>) returns (next: nat)
    requires parts != [] && parts[0].value < parts[0].of <= 0x8000_0000
    requires AlignedFor(pen.mode, pos) && Stand(data, pos, D.Code(pen, parts))
    ensures ChoiceRead(data, pen.mode, pos, parts[0].of) == Some((parts[0].value, next))
    ensures AlignedFor(pen.mode, next) && Stand(data, next, D.Code(pen, parts[1..]))
    ensures pos + |D.Code(pen, parts)| == next + |D.Code(pen, parts[1..])|
    ensures parts[0].of >= 2 ==> next >= pos + 1
    ensures parts[0].of >= 3 ==> next >= pos + 2
  {
    hide ChoiceRead; hide ChoiceWritten; hide Stand;
    var head := ChoiceWritten(pen.mode, parts[0].value, parts[0].of);
    StandSplit(data, pos, head, D.Code(pen, parts[1..]));
    ChoiceInverts(data, pen.mode, pos, parts[0].value, parts[0].of);
    PartLength(pen.mode, parts[0].value, parts[0].of);
    next := pos + |head|;
  }

  lemma TailsOf(a: D.Part, b: D.Part, c: D.Part)
    ensures [a][1..] == [] && [a, b][1..] == [b] && [a, b, c][1..] == [b, c] && [b] + [c] == [b, c] && [a, b] + [c] == [a, b, c]
  {
  }

  predicate Inner2(place: D.Place) {
    place == D.Tag || place == D.Inside
  }

  /** Events with a second part of their own. */
  predicate Second2(place: D.Place, o: Options, kind: EventKind) {
    match kind
    case EndElement => place == D.Tag
    case Attribute => place == D.Tag
    case NamespaceDeclaration => place == D.Tag && o.preservePrefixes
    case SelfContained => place == D.Tag && o.selfContained
    case StartElement => true
    case Characters => true
    case EntityReference => o.preserveDtd
    case _ => false
  }

  predicate Third3(o: Options, kind: EventKind) {
    (kind == Comment && o.preserveComments) || (kind == ProcessingInstruction && o.preservePis)
  }

  /** The second part of an event is its place among those the grammar offers. */
  lemma SecondIs(pen: D.Pen, place: D.Place, kind: EventKind)
    requires Inner2(place) && (Second2(place, pen.options, kind) || Third3(pen.options, kind))
    ensures var p := D.Second(pen, place, kind); var levels := SecondLevel(KindOf(place), pen.options);
      && p.of == |levels| == SecondCount(KindOf(place), pen.options) && p.value < p.of
      && levels[p.value] == if Third3(pen.options, kind) then None else Some(kind)
  {
  }

  /** The second and third part of an event. */
  lemma SecondReads(pen: D.Pen, data: seq<byte>, pos: nat, place: D.Place, kind: EventKind)
    requires Inner2(place) && (Second2(place, pen.options, kind) || Third3(pen.options, kind)) && AlignedFor(pen.mode, pos)
    requires var parts := [D.Second(pen, place, kind)] + if D.HasThird(kind) then [D.Third(pen, kind)] else [];
      Stand(data, pos, D.Code(pen, parts))
    ensures var count := SecondCount(KindOf(place), pen.options); var read := ChoiceRead(data, pen.mode, pos, count);
      var parts := [D.Second(pen, place, kind)] + if D.HasThird(kind) then [D.Third(pen, kind)] else [];
      && read.Some?
      && SecondEvent(data, pen.mode, read.value.1, KindOf(place), pen.options, read.value.0)
           == Some((BuiltIn(KindOf(place), kind), pos + |D.Code(pen, parts)|))
      && AlignedFor(pen.mode, pos + |D.Code(pen, parts)|) && |D.Code(pen, parts)| >= 1
      && (place == D.Tag ==> |D.Code(pen, parts)| >= 2)
  {
    hide ChoiceRead; hide ChoiceWritten; hide Stand; hide BuiltIn; hide SecondLevel; hide SecondCount; hide D.Second;
    SecondIs(pen, place, kind);
    SecondSize(pen, place, kind);
    var second, third := D.Second(pen, place, kind), D.Third(pen, kind);
    TailsOf(second, third, third);
    if D.HasThird(kind) {
      var next := PartReads(pen, data, pos, [second, third]);
      var end := PartReads(pen, data, next, [third]);
      ThirdIs(pen.options, kind);
    } else {
      var next := PartReads(pen, data, pos, [second]);
    }
  }

  lemma ThirdIs(o: Options, kind: EventKind)
    requires Third3(o, kind)
    ensures ThirdCount(o) == D.Thirds(o) > 0 && HasThird(o)
  {
  }

  lemma SecondSize(pen: D.Pen, place: D.Place, kind: EventKind)
    ensures 2 <= D.Second(pen, place, kind).of <= 8 && (place == D.Tag ==> D.Second(pen, place, kind).of >= 4)
  {
  }

  //
  // Event codes inside elements and fragments
  //

  /** What is read of event x of the given kind: learned now or known. */
  predicate Reads(key: D.Key, kind: EventKind, qname: nat, first: bool, d: Decoded) {
    && d.production == ProductionFor(KindOf(key.place), kind)
    && d.learn == first && d.qnameEncoded == (first && (kind == StartElement || kind == Attribute))
    && (!first ==> d.qname == qname)
  }

  lemma KnownReads(pen: D.Pen, data: seq<byte>, pos: nat, key: D.Key, ps: seq<Learned>, lists: D.Lists, k: nat)
    requires Matches(ps, lists) && k < |D.Of(lists, key)| < LONGEST && AlignedFor(pen.mode, pos)
    requires key.place == D.Top ==> key.owner == NO_NAME
    requires Stand(data, pos, D.Code(pen, [D.Part(k, D.Firsts(pen, key.place, |D.Of(lists, key)|))]))
    ensures var code := D.Code(pen, [D.Part(k, D.Firsts(pen, key.place, |D.Of(lists, key)|))]);
      var x := D.Of(lists, key)[k];
      && EventRead(data, pen.mode, pos, GrammarFrame(KindOf(key.place), key.owner), ps, pen.options)
           == Some((Decoded(ProductionFor(KindOf(key.place), EventOf(x)), qname := NameIn(x)), pos + |code|))
      && AlignedFor(pen.mode, pos + |code|) && |code| >= 1
  {
    hide ChoiceRead; hide ChoiceWritten; hide Stand; hide Listed; hide ProductionFor; hide SecondEvent;
    assert ListIs(ps, lists, key);
    var part := D.Part(k, D.Firsts(pen, key.place, |D.Of(lists, key)|));
    TailsOf(part, part, part);
    var next := PartReads(pen, data, pos, [part]);
  }

  /** A built-in event of an element's grammar. */
  lemma BuiltReads(pen: D.Pen, data: seq<byte>, pos: nat, key: D.Key, ps: seq<Learned>, lists: D.Lists, kind: EventKind)
    requires Matches(ps, lists) && |D.Of(lists, key)| < LONGEST && AlignedFor(pen.mode, pos) && Inner2(key.place)
    requires Second2(key.place, pen.options, kind) || Third3(pen.options, kind) || kind == EndElement
    requires Stand(data, pos, D.Code(pen, D.Built(pen, key.place, |D.Of(lists, key)|, kind)))
    ensures var code := D.Code(pen, D.Built(pen, key.place, |D.Of(lists, key)|, kind));
      && EventRead(data, pen.mode, pos, GrammarFrame(KindOf(key.place), key.owner), ps, pen.options)
           == Some((BuiltIn(KindOf(key.place), kind), pos + |code|))
      && AlignedFor(pen.mode, pos + |code|) && |code| >= 1 && (key.place == D.Tag ==> |code| >= 2)
  {
    hide ChoiceRead; hide ChoiceWritten; hide Stand; hide Listed; hide BuiltIn; hide SecondEvent; hide SecondCount; hide D.Second;
    assert ListIs(ps, lists, key);
    var n := |D.Of(lists, key)|;
    var parts := D.Built(pen, key.place, n, kind);
    if key.place == D.Inside && kind == EndElement {
      TailsOf(parts[0], parts[0], parts[0]);
      var next := PartReads(pen, data, pos, parts);
    } else {
      var rest := [D.Second(pen, key.place, kind)] + if D.HasThird(kind) then [D.Third(pen, kind)] else [];
      assert parts[1..] == rest;
      var next := PartReads(pen, data, pos, parts);
      SecondReads(pen, data, next, key.place, kind);
    }
  }

  /** A built-in event of a fragment's grammar. */
  lemma TopReads(pen: D.Pen, data: seq<byte>, pos: nat, ps: seq<Learned>, lists: D.Lists, kind: EventKind)
    requires Matches(ps, lists) && |D.Of(lists, D.Key(NO_NAME, D.Top))| < LONGEST && AlignedFor(pen.mode, pos)
    requires kind == StartElement || kind == EndDocument || Third3(pen.options, kind)
    requires Stand(data, pos, D.Code(pen, D.Built(pen, D.Top, |D.Of(lists, D.Key(NO_NAME, D.Top))|, kind)))
    ensures var code := D.Code(pen, D.Built(pen, D.Top, |D.Of(lists, D.Key(NO_NAME, D.Top))|, kind));
      && EventRead(data, pen.mode, pos, GrammarFrame(FragmentContent, NO_NAME), ps, pen.options)
           == Some((match kind
                    case StartElement =>
                      Decoded(Production(StartElement, FragmentContent, true, false), qnameEncoded := true, learn := true)
                    case EndDocument => Decoded(Production(EndDocument, FragmentContent, false, true))
                    case _ => Plain(kind, FragmentContent), pos + |code|))
      && AlignedFor(pen.mode, pos + |code|) && |code| >= 1
  {
    hide ChoiceRead; hide ChoiceWritten; hide Stand; hide Listed;
    var key := D.Key(NO_NAME, D.Top);
    assert ListIs(ps, lists, key);
    var parts := D.Built(pen, D.Top, |D.Of(lists, key)|, kind);
    TailsOf(parts[0], parts[|parts| - 1], parts[0]);
    var next := PartReads(pen, data, pos, parts);
    if Third3(pen.options, kind) {
      ThirdIs(pen.options, kind);
      assert parts[1..] == [D.Third(pen, kind)];
      var end := PartReads(pen, data, next, [D.Third(pen, kind)]);
      TailsOf(D.Third(pen, kind), parts[0], parts[0]);
    }
  }

  /** What can be said at a place and remembered. */
  predicate Rememberable(key: D.Key, kind: EventKind) {
    match key.place
    case Tag => kind in {StartElement, Attribute, Characters, EndElement}
    case Inside => kind in {StartElement, Characters}
    case Top => kind == StartElement && key.owner == NO_NAME
  }

  /** An event said from the list or for the first time is read as itself, and the lists stay the same. */
  lemma SpeakReads(pen: D.Pen, data: seq<byte>, pos: nat, key: D.Key, ps: seq<Learned>, lists: D.Lists, x: D.Said)
    returns (d: Decoded, ps': seq<Learned>)
    requires Matches(ps, lists) && |ps| < LONGEST && AlignedFor(pen.mode, pos) && Rememberable(key, EventOf(x))
    requires Stand(data, pos, D.Speak(pen, lists, key, x, EventOf(x)).code)
    ensures var s := D.Speak(pen, lists, key, x, EventOf(x));
      && EventRead(data, pen.mode, pos, GrammarFrame(KindOf(key.place), key.owner), ps, pen.options) == Some((d, pos + |s.code|))
      && Reads(key, EventOf(x), NameIn(x), s.first, d)
      && ps' == (if s.first then WithLearned(ps, Stored(key, x)) else ps)
      && Matches(ps', s.lists) && |ps'| <= |ps| + 1
      && AlignedFor(pen.mode, pos + |s.code|) && |s.code| >= 1
      && (x == D.End && s.first ==> |s.code| >= 2)
  {
    hide EventRead; hide Stand; hide D.Code; hide Listed; hide Matches; hide D.Built;
    var list := D.Of(lists, key);
    var s := D.Speak(pen, lists, key, x, EventOf(x));
    ListShort(ps, lists, key);
    if s.first {
      if key.place == D.Top {
        TopReads(pen, data, pos, ps, lists, EventOf(x));
      } else {
        BuiltReads(pen, data, pos, key, ps, lists, EventOf(x));
      }
      LearnMatches(ps, lists, key, x);
      ps' := ps + [Stored(key, x)];
    } else {
      KnownReads(pen, data, pos, key, ps, lists, D.Find(list, x));
      ps' := ps;
    }
    d := EventRead(data, pen.mode, pos, GrammarFrame(KindOf(key.place), key.owner), ps, pen.options).value.0;
  }

  lemma ListShort(ps: seq<Learned>, lists: D.Lists, key: D.Key)
    requires Matches(ps, lists)
    ensures |D.Of(lists, key)| <= |ps|
  {
    assert ListIs(ps, lists, key);
    ListedBelong(ps, key.owner, KindOf(key.place));
  }
}
