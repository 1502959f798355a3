// One event of the encoder, decoded: what the turn of the event loop at each kind of word does.
module ExiTurns {
  import opened Common
  import opened ExiBits
  import opened ExiGrammars
  import opened ExiEvents
  import opened ExiSpoken
  import D = ExiDocument

  /** The input, the readers of names and values, and the limits of the decoder. */
  datatype Env = Env(lim: Limits, data: seq<byte>, mode: InputMode, contents: nat -> Content)

  ghost predicate EnvOk(env: Env, pen: D.Pen) {
    && pen == D.Pen(env.mode, env.lim.options)
    && 8 * |env.data| < LONGEST && env.lim.productions == 8 * |env.data| + 1
  }

  function Go(env: Env, S: Session, pos: nat, i: nat): Option<Session> {
    RunBy(S, env.lim, env.data, env.mode, pos, env.contents, i, 8 * |env.data| + 1)
  }

  /** A session without what it has learned and told: the frames below, the fragment, its grammars, the open elements. */
  datatype Spot = Spot(below: seq<Frame>, root: Name, depth: nat, started: bool, g: seq<GrammarFrame>, open: seq<Name>,
                       nils: seq<bool>)

  function FrameOf(sp: Spot, ps: seq<Learned>): Frame {
    Frame(FragmentState(sp.g, ps), sp.root, sp.depth, sp.started)
  }

  function Sess(sp: Spot, ps: seq<Learned>, log: seq<SinkEvent>): Session {
    Session(sp.below + [FrameOf(sp, ps)], sp.open, sp.nils, log, false)
  }

  /** The words stand in the data from pos on and are conveyed from event i on. */
  ghost predicate Here(env: Env, words: seq<D.Word>, pos: nat, i: nat) {
    Stand(env.data, pos, D.Spell(words, pos)) && D.Delivered(env.contents, words, pos, i)
  }

  function EndOf(words: seq<D.Word>, pos: nat): (r: nat)
    ensures r >= pos
  {
    pos + |D.Spell(words, pos)|
  }

  /** Every event but one took a bit at least, and so did everything learned. */
  predicate Paced(env: Env, ps: seq<Learned>, pos: nat, i: nat) {
    i <= pos + 1 && |ps| <= pos && AlignedFor(env.mode, pos)
  }

  lemma {:induction false} SpellJoined(a: seq<D.Word>, b: seq<D.Word>, pos: nat)
    ensures D.Spell(a + b, pos) == D.Spell(a, pos) + D.Spell(b, EndOf(a, pos))
    decreases |a|
  {
    hide D.Padded;
    if a == [] {
      assert a + b == b;
    } else {
      var first := D.Padded(a[0], pos);
      assert (a + b)[1..] == a[1..] + b;
      SpellJoined(a[1..], b, pos + |first|);
      Grouped(first, D.Spell(a[1..], pos + |first|), D.Spell(b, EndOf(a, pos)));
    }
  }

  lemma Grouped(a: D.Bits, b: D.Bits, c: D.Bits)
    ensures a + (b + c) == (a + b) + c
  {
  }

  lemma {:induction false} DeliveredJoined(contents: nat -> Content, a: seq<D.Word>, b: seq<D.Word>, pos: nat, i: nat)
    requires D.Delivered(contents, a + b, pos, i)
    ensures D.Delivered(contents, a, pos, i) && D.Delivered(contents, b, EndOf(a, pos), i + |a|)
    decreases |a|
  {
    hide D.Padded; hide D.Conveys;
    if a == [] {
      assert a + b == b;
    } else {
      assert (a + b)[1..] == a[1..] + b;
      DeliveredJoined(contents, a[1..], b, pos + |D.Padded(a[0], pos)|, i + 1);
    }
  }

  lemma HereJoined(env: Env, a: seq<D.Word>, b: seq<D.Word>, pos: nat, i: nat)
    requires Here(env, a + b, pos, i)
    ensures Here(env, a, pos, i) && Here(env, b, EndOf(a, pos), i + |a|)
    ensures EndOf(a + b, pos) == EndOf(b, EndOf(a, pos))
  {
    hide Stand; hide D.Spell; hide D.Delivered;
    SpellJoined(a, b, pos);
    StandSplit(env.data, pos, D.Spell(a, pos), D.Spell(b, EndOf(a, pos)));
    DeliveredJoined(env.contents, a, b, pos, i);
  }

  /** The end of the code and of what follows it. */
  function Last(w: D.Word, pos: nat): nat {
    pos + |w.code| + |w.rest|
  }

  lemma WordHere(env: Env, w: D.Word, pos: nat, i: nat)
    requires Here(env, [w], pos, i)
    ensures Stand(env.data, pos, w.code) && D.Conveys(env.contents(i), w, Last(w, pos))
    ensures EndOf([w], pos) == (if w.pad then ByteStart(Last(w, pos)) else Last(w, pos)) <= 8 * |env.data|
    ensures Last(w, pos) <= EndOf([w], pos)
  {
    hide Stand; hide D.Conveys;
    assert [w][1..] == [];
    var padding := D.Padded(w, pos)[|w.code + w.rest|..];
    assert D.Spell([w], pos) == D.Padded(w, pos) + [] == D.Padded(w, pos);
    assert D.Padded(w, pos) == w.code + (w.rest + padding);
    StandSplit(env.data, pos, w.code, w.rest + padding);
    StandInside(env.data, pos, D.Padded(w, pos));
  }

  /** The turn at a word whose code is read as d, when it is neither refused nor the last. */
  lemma EventRuns(env: Env, sp: Spot, ps: seq<Learned>, log: seq<SinkEvent>, w: D.Word, pos: nat, i: nat, d: Decoded)
    requires sp.g != [] && Here(env, [w], pos, i) && i <= 8 * |env.data|
    requires EventRead(env.data, env.mode, pos, TopOf(sp.g), ps, env.lim.options) == Some((d, pos + |w.code|))
    requires !NilRefuses(Sess(sp, ps, log), d.production.event)
    requires w.pad <==> d.production.event == SelfContained || (d.production.event == EndDocument && sp.below != [])
    ensures var T := EventBy(Sess(sp, ps, log), env.lim, d, TopOf(sp.g), env.contents(i));
      Go(env, Sess(sp, ps, log), pos, i) ==
        if T.None? then None else if T.value.finished then T else Go(env, T.value, EndOf([w], pos), i + 1)
  {
    hide EventRead; hide EventBy; hide D.Spell; hide D.Delivered; hide ByteStart;
    WordHere(env, w, pos, i);
    FrameAt(sp, ps, log);
    StandInside(env.data, pos, w.code);
  }

  lemma FrameAt(sp: Spot, ps: seq<Learned>, log: seq<SinkEvent>)
    ensures var S := Sess(sp, ps, log); S.frames != [] && S.frames[|S.frames| - 1] == FrameOf(sp, ps)
    ensures |Sess(sp, ps, log).frames| == |sp.below| + 1 && Sess(sp, ps, log).frames[..|sp.below|] == sp.below
    ensures forall f: Frame :: WithTop(Sess(sp, ps, log).frames, f) == sp.below + [f]
  {
  }

  /** Which events an element lets pass. */
  lemma Allowed(sp: Spot, ps: seq<Learned>, log: seq<SinkEvent>, event: EventKind)
    requires Quiet(sp) || event in {Attribute, NamespaceDeclaration, EndElement}
    ensures !NilRefuses(Sess(sp, ps, log), event)
  {
  }

  lemma Dispatches(S: Session, lim: Limits, d: Decoded, top: GrammarFrame, content: Content)
    ensures EventBy(S, lim, d, top, content) ==
              match d.production.event
              case StartDocument => MovedBy(S, lim, d, NO_NAME)
              case EndDocument => DocumentBy(S)
              case StartElement => StartBy(S, lim, d, top.kind, top.owner, content)
              case EndElement => EndBy(S, lim, d, top.kind, top.owner)
              case SelfContained => SelfBy(S, lim, top.kind)
              case Attribute => AttributeBy(S, lim, d, top.kind, top.owner, content)
              case Characters => CharactersBy(S, lim, d, top.kind, top.owner, content)
              case _ => SimpleBy(S, lim, d, content, Other(d.production.event))
  {
    hide MovedBy; hide DocumentBy; hide StartBy; hide EndBy; hide SelfBy; hide AttributeBy; hide CharactersBy; hide SimpleBy;
  }

  lemma CharactersAre(S: Session, T: Session, lim: Limits, d: Decoded, kind: GrammarKind, owner: nat, content: Content)
    requires LearnedBy(S, lim, kind, owner, d, NO_NAME) == Some(T)
    ensures CharactersBy(S, lim, d, kind, owner, content) == SimpleBy(T, lim, d, content, Other(Characters))
  {
    hide LearnedBy; hide SimpleBy;
  }

  //
  // The handlers
  //

  lemma Moves(sp: Spot, ps: seq<Learned>, log: seq<SinkEvent>, lim: Limits, d: Decoded, child: nat)
    requires sp.g != []
    ensures MovedBy(Sess(sp, ps, log), lim, d, child) ==
              if !d.production.pop && d.production.push && (child == NO_NAME || |sp.g| >= lim.depth) then None
              else Some(Sess(sp.(g := Transition(sp.g, d.production, child)), ps, log))
  {
    hide Transition;
    FrameAt(sp, ps, log);
  }

  /** Learning what the encoder has just said. */
  lemma Learns(sp: Spot, ps: seq<Learned>, log: seq<SinkEvent>, lim: Limits, key: D.Key, x: D.Said, d: Decoded, ps': seq<Learned>)
    requires d.production.event == EventOf(x) && |ps'| <= lim.productions
    requires ps' == if d.learn then WithLearned(ps, Stored(key, x)) else ps
    ensures LearnedBy(Sess(sp, ps, log), lim, KindOf(key.place), key.owner, d, NameIn(x)) == Some(Sess(sp, ps', log))
  {
    hide WithLearned; hide ProductionFor;
    FrameAt(sp, ps, log);
  }

  /** The grammar on top is that of the place. */
  predicate StandsAt(sp: Spot, key: D.Key) {
    sp.g != [] && TopOf(sp.g) == GrammarFrame(KindOf(key.place), key.owner) && |sp.open| == |sp.nils|
  }

  predicate Quiet(sp: Spot) {
    sp.nils == [] || !sp.nils[|sp.nils| - 1]
  }

  /** A fragment's root has started and not ended. */
  predicate Starts(sp: Spot) {
    sp.below == [] || (sp.started && |sp.open| >= sp.depth)
  }

  function Retop(sp: Spot, kind: GrammarKind): Spot
    requires sp.g != []
  {
    sp.(g := sp.g[..|sp.g| - 1] + [TopOf(sp.g).(kind := kind)])
  }

  /** The place behind an event at this place. */
  function Next(place: D.Place): D.Place {
    if place == D.Top then D.Top else D.Inside
  }

  function Pushed(sp: Spot, next: GrammarKind, qname: nat): Spot
    requires sp.g != []
  {
    sp.(g := Retop(sp, next).g + [GrammarFrame(StartTagContent, qname)])
  }

  function Opened(sp: Spot, next: GrammarKind, e: D.Element): Spot
    requires sp.g != []
  {
    Pushed(sp, next, e.qname).(open := sp.open + [e.name], nils := sp.nils + [false])
  }

  function Closed(sp: Spot): Spot
    requires sp.g != [] && sp.open != [] && sp.nils != []
  {
    sp.(g := sp.g[..|sp.g| - 1], open := sp.open[..|sp.open| - 1], nils := sp.nils[..|sp.nils| - 1])
  }

  lemma StartIs(sp: Spot, ps: seq<Learned>, log: seq<SinkEvent>, lim: Limits, key: D.Key, e: D.Element, d: Decoded,
                ps': seq<Learned>, content: Content, w: D.Word)
    requires StandsAt(sp, key) && Starts(sp) && |ps'| <= lim.productions && e.qname < NO_NAME
    requires Reads(key, StartElement, e.qname, d.learn, d) && D.Conveys(content, w, content.end)
    requires w.sense == D.ElementName(e.qname, e.name, d.learn)
    requires ps' == if d.learn then WithLearned(ps, Stored(key, D.Start(e.qname))) else ps
    ensures StartBy(Sess(sp, ps, log), lim, d, KindOf(key.place), key.owner, content) ==
              if |sp.open| >= lim.depth || |sp.g| >= lim.depth then None
              else Some(Sess(Opened(sp, KindOf(Next(key.place)), e), ps', log + [Started(e.name)]))
  {
    hide LearnedBy; hide MovedBy; hide WithLearned; hide Stored;
    Learns(sp, ps, log, lim, key, D.Start(e.qname), d, ps');
    FrameAt(sp, ps, log);
    var wider := sp.(open := sp.open + [e.name], nils := sp.nils + [false]);
    Moves(wider, ps', log + [Started(e.name)], lim, d, e.qname);
  }

  lemma StartRuns(env: Env, pen: D.Pen, sp: Spot, ps: seq<Learned>, lists: D.Lists, log: seq<SinkEvent>, key: D.Key,
                  e: D.Element, pos: nat, i: nat) returns (ps': seq<Learned>)
    requires EnvOk(env, pen) && StandsAt(sp, key) && Quiet(sp) && Starts(sp) && Matches(ps, lists) && Paced(env, ps, pos, i)
    requires key.place == D.Top ==> key.owner == NO_NAME
    requires D.NameOk(pen, e.qname, e.spelling) && Here(env, D.StartPiece(pen, lists, key, e).words, pos, i)
    ensures var s := D.StartPiece(pen, lists, key, e); var end := EndOf(s.words, pos);
      && Matches(ps', s.lists) && Paced(env, ps', end, i + 1) && end >= pos + 1
      && Go(env, Sess(sp, ps, log), pos, i) ==
           if |sp.open| >= env.lim.depth || |sp.g| >= env.lim.depth then None
           else Go(env, Sess(Opened(sp, KindOf(Next(key.place)), e), ps', log + [Started(e.name)]), end, i + 1)
  {
    hide EventBy; hide NilRefuses; hide EndOf; hide Listed; hide D.Padded; hide FrameOf;
    hide EventRead; hide D.Spell; hide D.Delivered; hide Stand; hide D.Speak; hide StartBy; hide WithLearned; hide Go; hide D.Conveys;
    hide Matches; hide Stored;
    var x := D.Start(e.qname);
    var w := D.StartPiece(pen, lists, key, e).words[0];
    WordHere(env, w, pos, i);
    StandInside(env.data, pos, w.code);
    var d;
    d, ps' := SpeakReads(pen, env.data, pos, key, ps, lists, x);
    Allowed(sp, ps, log, d.production.event);
    Dispatches(Sess(sp, ps, log), env.lim, d, TopOf(sp.g), env.contents(i));
    EventRuns(env, sp, ps, log, w, pos, i, d);
    ConveysEnd(env.contents(i), w, Last(w, pos));
    StartIs(sp, ps, log, env.lim, key, e, d, ps', env.contents(i), w);
  }

  //
  // Attributes and namespace declarations
  //

  /** What a mark does to the element. */
  function Marked(sp: Spot, m: D.Mark): Spot
    requires sp.open != [] && |sp.open| == |sp.nils|
  {
    var n := |sp.open| - 1;
    match m
    case Attribute(_, _, _, _, nil) => if nil.Some? then sp.(nils := sp.nils[n := nil.value]) else sp
    case Declaration(_, local, prefix) => if local then sp.(open := sp.open[n := sp.open[n].(prefix := prefix)]) else sp
  }

  lemma AttributeIs(sp: Spot, ps: seq<Learned>, log: seq<SinkEvent>, lim: Limits, owner: nat, m: D.Mark, typed: bool, d: Decoded,
                    ps': seq<Learned>, content: Content, w: D.Word)
    requires StandsAt(sp, D.Key(owner, D.Tag)) && sp.open != [] && |ps'| <= lim.productions && m.Attribute?
    requires Reads(D.Key(owner, D.Tag), Attribute, m.qname, d.learn, d) && D.Conveys(content, w, content.end)
    requires w.sense == D.AttributeName(m.qname, m.name, d.learn, m.nil, typed)
    requires ps' == if d.learn then WithLearned(ps, Stored(D.Key(owner, D.Tag), D.Attr(m.qname))) else ps
    ensures var after := Marked(sp, m);
      AttributeBy(Sess(sp, ps, log), lim, d, StartTagContent, owner, content)
        == Some(Sess(if typed then Retop(after, SchemaSimpleTypeContent) else after, ps', log + [Attributed(m.name)]))
  {
    hide LearnedBy; hide SimpleBy; hide WithLearned; hide Stored; hide D.Conveys; hide Marked;
    Learns(sp, ps, log, lim, D.Key(owner, D.Tag), D.Attr(m.qname), d, ps');
    var n := |sp.nils| - 1;
    var after := if m.nil.Some? then sp.(nils := sp.nils[n := m.nil.value]) else sp;
    Flags(content, w);
    assert Marked(sp, m) == after by { SetBy(sp, m); }
    Stays(after, ps', log, lim, d, content, Attributed(m.name));
    FrameAt(after, ps', log + [Attributed(m.name)]);
  }

  lemma Flags(content: Content, w: D.Word)
    requires w.sense.AttributeName? && D.Conveys(content, w, content.end)
    ensures var x := w.sense;
      && content.ok && D.NameIs(content, x.qname, x.name, x.spelled) && content.simpleType == x.typed
      && content.setsNil == x.nil.Some? && (x.nil.Some? ==> content.nil == x.nil.value)
  {
  }

  lemma SetBy(sp: Spot, m: D.Mark)
    requires sp.open != [] && |sp.open| == |sp.nils| && m.Attribute?
    ensures Marked(sp, m) == if m.nil.Some? then sp.(nils := sp.nils[|sp.nils| - 1 := m.nil.value]) else sp
  {
  }

  /** An event that leaves its grammar on top. */
  lemma Stays(sp: Spot, ps: seq<Learned>, log: seq<SinkEvent>, lim: Limits, d: Decoded, content: Content, told: SinkEvent)
    requires sp.g != [] && content.ok && told != Other(NamespaceDeclaration)
    requires !d.production.pop && !d.production.push
    ensures SimpleBy(Sess(sp, ps, log), lim, d, content, told)
         == Some(Sess(Retop(sp, d.production.next), ps, log + [told]))
    ensures d.production.next == TopOf(sp.g).kind ==> Retop(sp, d.production.next) == sp
  {
    hide MovedBy;
    Moves(sp, ps, log + [told], lim, d, NO_NAME);
    assert Transition(sp.g, d.production, NO_NAME) == Retop(sp, d.production.next).g;
    if d.production.next == TopOf(sp.g).kind {
      assert Retop(sp, d.production.next).g == sp.g;
    }
  }

  lemma DeclarationIs(sp: Spot, ps: seq<Learned>, log: seq<SinkEvent>, lim: Limits, owner: nat, m: D.Mark, d: Decoded,
                      content: Content, w: D.Word)
    requires StandsAt(sp, D.Key(owner, D.Tag)) && sp.open != [] && m.Declaration?
    requires d == BuiltIn(StartTagContent, NamespaceDeclaration) && D.Conveys(content, w, content.end)
    requires w.sense == D.Prefix(m.local, m.prefix)
    ensures SimpleBy(Sess(sp, ps, log), lim, d, content, Other(NamespaceDeclaration))
         == Some(Sess(Marked(sp, m), ps, log + [Other(NamespaceDeclaration)]))
  {
    hide MovedBy;
    var after := Marked(sp, m);
    Moves(after, ps, log + [Other(NamespaceDeclaration)], lim, d, NO_NAME);
    assert Transition(after.g, d.production, NO_NAME) == after.g;
    assert after.(g := after.g) == after;
  }

  /** The turn at an attribute or declaration; the attribute that selects a simple type leaves its grammar on top. */
  ghost predicate MarkRan(env: Env, pen: D.Pen, sp: Spot, ps: seq<Learned>, lists: D.Lists, log: seq<SinkEvent>, owner: nat,
                          m: D.Mark, typed: bool, pos: nat, i: nat, ps': seq<Learned>)
    requires sp.g != [] && sp.open != [] && |sp.open| == |sp.nils|
  {
    var s := D.MarkPiece(pen, lists, owner, m, typed); var end := EndOf(s.words, pos); var after := Marked(sp, m);
    && |s.words| == 1 && Matches(ps', s.lists) && Paced(env, ps', end, i + 1) && end >= pos + 1
    && Go(env, Sess(sp, ps, log), pos, i) ==
         Go(env, Sess(if typed then Retop(after, SchemaSimpleTypeContent) else after, ps', log + [D.MarkEvent(m)]), end, i + 1)
  }

  lemma AttributeRuns(env: Env, pen: D.Pen, sp: Spot, ps: seq<Learned>, lists: D.Lists, log: seq<SinkEvent>, owner: nat,
                 m: D.Mark, typed: bool, pos: nat, i: nat) returns (ps': seq<Learned>)
    requires EnvOk(env, pen) && StandsAt(sp, D.Key(owner, D.Tag)) && sp.open != [] && Matches(ps, lists)
    requires Paced(env, ps, pos, i) && D.MarkOk(pen, m) && m.Attribute?
    requires Here(env, D.MarkPiece(pen, lists, owner, m, typed).words, pos, i)
    ensures MarkRan(env, pen, sp, ps, lists, log, owner, m, typed, pos, i, ps')
  {
    hide EventBy; hide NilRefuses; hide EndOf; hide Listed; hide D.Padded; hide FrameOf;
    hide EventRead; hide D.Spell; hide D.Delivered; hide Stand; hide D.Speak; hide D.Conveys; hide Go; hide Marked;
    hide AttributeBy; hide WithLearned; hide Matches; hide Stored;
    var key := D.Key(owner, D.Tag);
    var w := D.MarkPiece(pen, lists, owner, m, typed).words[0];
    WordHere(env, w, pos, i);
    StandInside(env.data, pos, w.code);
    var d;
    d, ps' := SpeakReads(pen, env.data, pos, key, ps, lists, D.Attr(m.qname));
    Allowed(sp, ps, log, d.production.event);
    Dispatches(Sess(sp, ps, log), env.lim, d, TopOf(sp.g), env.contents(i));
    EventRuns(env, sp, ps, log, w, pos, i, d);
    ConveysEnd(env.contents(i), w, Last(w, pos));
    AttributeIs(sp, ps, log, env.lim, owner, m, typed, d, ps', env.contents(i), w);
  }

  lemma DeclarationRuns(env: Env, pen: D.Pen, sp: Spot, ps: seq<Learned>, lists: D.Lists, log: seq<SinkEvent>, owner: nat,
                 m: D.Mark, typed: bool, pos: nat, i: nat) returns (ps': seq<Learned>)
    requires EnvOk(env, pen) && StandsAt(sp, D.Key(owner, D.Tag)) && sp.open != [] && Matches(ps, lists)
    requires Paced(env, ps, pos, i) && D.MarkOk(pen, m) && m.Declaration? && !typed
    requires Here(env, D.MarkPiece(pen, lists, owner, m, typed).words, pos, i)
    ensures MarkRan(env, pen, sp, ps, lists, log, owner, m, typed, pos, i, ps')
  {
    hide EventBy; hide NilRefuses; hide EndOf; hide Listed; hide D.Padded; hide FrameOf;
    hide EventRead; hide D.Spell; hide D.Delivered; hide Stand; hide D.Code; hide D.Built; hide BuiltIn; hide D.Conveys;
    hide SimpleBy; hide Matches; hide Go; hide Marked;
    var key := D.Key(owner, D.Tag);
    var w := D.MarkPiece(pen, lists, owner, m, typed).words[0];
    WordHere(env, w, pos, i);
    StandInside(env.data, pos, w.code);
    ListShort(ps, lists, key);
    BuiltReads(pen, env.data, pos, key, ps, lists, NamespaceDeclaration);
    var d := BuiltIn(StartTagContent, NamespaceDeclaration);
    BuiltEvent(StartTagContent, NamespaceDeclaration);
    ps' := ps;
    Allowed(sp, ps, log, d.production.event);
    Dispatches(Sess(sp, ps, log), env.lim, d, TopOf(sp.g), env.contents(i));
    EventRuns(env, sp, ps, log, w, pos, i, d);
    ConveysEnd(env.contents(i), w, Last(w, pos));
    DeclarationIs(sp, ps, log, env.lim, owner, m, d, env.contents(i), w);
  }

  lemma ConveysEnd(content: Content, w: D.Word, end: nat)
    requires D.Conveys(content, w, end)
    ensures content.ok && content.end == end
  {
  }

  lemma MarkRuns(env: Env, pen: D.Pen, sp: Spot, ps: seq<Learned>, lists: D.Lists, log: seq<SinkEvent>, owner: nat,
                 m: D.Mark, typed: bool, pos: nat, i: nat) returns (ps': seq<Learned>)
    requires EnvOk(env, pen) && StandsAt(sp, D.Key(owner, D.Tag)) && sp.open != [] && Matches(ps, lists)
    requires Paced(env, ps, pos, i) && D.MarkOk(pen, m) && (typed ==> m.Attribute?)
    requires Here(env, D.MarkPiece(pen, lists, owner, m, typed).words, pos, i)
    ensures MarkRan(env, pen, sp, ps, lists, log, owner, m, typed, pos, i, ps')
  {
    hide Matches; hide Here; hide MarkRan;
    if m.Attribute? {
      ps' := AttributeRuns(env, pen, sp, ps, lists, log, owner, m, typed, pos, i);
    } else {
      ps' := DeclarationRuns(env, pen, sp, ps, lists, log, owner, m, typed, pos, i);
    }
  }

  lemma BuiltEvent(grammar: GrammarKind, event: EventKind)
    ensures BuiltIn(grammar, event).production.event == event
  {
  }

  //
  // Content and ends
  //

  lemma CharsRuns(env: Env, pen: D.Pen, sp: Spot, ps: seq<Learned>, lists: D.Lists, log: seq<SinkEvent>, key: D.Key,
                  text: D.Bits, pos: nat, i: nat) returns (ps': seq<Learned>)
    requires EnvOk(env, pen) && StandsAt(sp, key) && Quiet(sp) && Matches(ps, lists) && Paced(env, ps, pos, i)
    requires Inner2(key.place) && D.Whole(pen, text) && Here(env, D.CharsPiece(pen, lists, key, text).words, pos, i)
    ensures var s := D.CharsPiece(pen, lists, key, text); var end := EndOf(s.words, pos);
      && Matches(ps', s.lists) && Paced(env, ps', end, i + 1) && end >= pos + 1
      && Go(env, Sess(sp, ps, log), pos, i) ==
           Go(env, Sess(Retop(sp, ElementContent), ps', log + [Other(Characters)]), end, i + 1)
  {
    hide EventBy; hide NilRefuses; hide EndOf; hide Listed; hide D.Padded; hide FrameOf;
    hide EventRead; hide D.Spell; hide D.Delivered; hide Stand; hide D.Speak; hide LearnedBy; hide SimpleBy; hide WithLearned;
    hide Matches; hide Stored; hide D.Conveys; hide Go; hide Retop;
    var w := D.CharsPiece(pen, lists, key, text).words[0];
    WordHere(env, w, pos, i);
    StandInside(env.data, pos, w.code);
    var d;
    d, ps' := SpeakReads(pen, env.data, pos, key, ps, lists, D.Chars);
    Allowed(sp, ps, log, d.production.event);
    Dispatches(Sess(sp, ps, log), env.lim, d, TopOf(sp.g), env.contents(i));
    EventRuns(env, sp, ps, log, w, pos, i, d);
    ConveysEnd(env.contents(i), w, Last(w, pos));
    Learns(sp, ps, log, env.lim, key, D.Chars, d, ps');
    CharactersAre(Sess(sp, ps, log), Sess(sp, ps', log), env.lim, d, KindOf(key.place), key.owner, env.contents(i));
    Stays(sp, ps', log, env.lim, d, env.contents(i), Other(Characters));
  }

  lemma NoteReads(pen: D.Pen, data: seq<byte>, pos: nat, key: D.Key, ps: seq<Learned>, lists: D.Lists, note: D.Note) returns (d: Decoded)
    requires Matches(ps, lists) && |ps| < LONGEST && AlignedFor(pen.mode, pos) && (key.place == D.Top ==> key.owner == NO_NAME)
    requires D.NodeOk(pen, D.Aside(note), key.place == D.Top)
    requires Stand(data, pos, D.NoteWord(pen, lists, key, note).code)
    ensures var code := D.NoteWord(pen, lists, key, note).code;
      && EventRead(data, pen.mode, pos, GrammarFrame(KindOf(key.place), key.owner), ps, pen.options) == Some((d, pos + |code|))
      && AlignedFor(pen.mode, pos + |code|) && |code| >= 1
    ensures d.production == Production(note.kind, KindOf(Next(key.place)), false, false)
    ensures note.kind in {Comment, ProcessingInstruction, EntityReference} && D.Whole(pen, note.text)
  {
    hide EventRead; hide Stand; hide Matches; hide D.Code; hide D.Built;
    ListShort(ps, lists, key);
    if key.place == D.Top {
      TopReads(pen, data, pos, ps, lists, note.kind);
    } else {
      BuiltReads(pen, data, pos, key, ps, lists, note.kind);
    }
    d := EventRead(data, pen.mode, pos, GrammarFrame(KindOf(key.place), key.owner), ps, pen.options).value.0;
  }

  /** Comments, processing instructions and entity references. */
  lemma NoteRuns(env: Env, pen: D.Pen, sp: Spot, ps: seq<Learned>, lists: D.Lists, log: seq<SinkEvent>, key: D.Key,
                 note: D.Note, pos: nat, i: nat)
    requires EnvOk(env, pen) && StandsAt(sp, key) && Quiet(sp) && Matches(ps, lists) && Paced(env, ps, pos, i)
    requires key.place == D.Top ==> key.owner == NO_NAME
    requires D.NodeOk(pen, D.Aside(note), key.place == D.Top) && Here(env, [D.NoteWord(pen, lists, key, note)], pos, i)
    ensures var end := EndOf([D.NoteWord(pen, lists, key, note)], pos);
      && Paced(env, ps, end, i + 1) && end >= pos + 1
      && Go(env, Sess(sp, ps, log), pos, i) ==
           Go(env, Sess(Retop(sp, KindOf(Next(key.place))), ps, log + [Other(note.kind)]), end, i + 1)
  {
    hide EventBy; hide NilRefuses; hide EndOf; hide Listed; hide D.Padded; hide FrameOf;
    hide EventRead; hide D.Spell; hide D.Delivered; hide Stand; hide SimpleBy; hide Matches; hide D.Code; hide D.Built;
    hide D.Conveys; hide Go; hide Retop;
    hide D.NodeOk;
    var w := D.NoteWord(pen, lists, key, note);
    WordHere(env, w, pos, i);
    StandInside(env.data, pos, w.code);
    var d := NoteReads(pen, env.data, pos, key, ps, lists, note);
    Allowed(sp, ps, log, d.production.event);
    Dispatches(Sess(sp, ps, log), env.lim, d, TopOf(sp.g), env.contents(i));
    EventRuns(env, sp, ps, log, w, pos, i, d);
    ConveysEnd(env.contents(i), w, Last(w, pos));
    Stays(sp, ps, log, env.lim, d, env.contents(i), Other(note.kind));
  }

  lemma EndIs(sp: Spot, ps: seq<Learned>, log: seq<SinkEvent>, lim: Limits, kind: GrammarKind, owner: nat, d: Decoded,
              ps': seq<Learned>)
    requires sp.g != [] && |sp.open| == |sp.nils| > 0 && d.production.pop
    requires LearnedBy(Sess(sp, ps, log), lim, kind, owner, d, NO_NAME) == Some(Sess(sp, ps', log))
    ensures EndBy(Sess(sp, ps, log), lim, d, kind, owner)
         == Some(Sess(Closed(sp), ps', log + [Ended(sp.open[|sp.open| - 1])]))
  {
    hide LearnedBy; hide MovedBy;
    var n := |sp.open| - 1;
    var shut := sp.(open := sp.open[..n], nils := sp.nils[..n]);
    Moves(shut, ps', log + [Ended(sp.open[n])], lim, d, NO_NAME);
  }

  lemma EndIsRead(env: Env, pen: D.Pen, sp: Spot, ps: seq<Learned>, lists: D.Lists, log: seq<SinkEvent>, key: D.Key, pos: nat)
    returns (d: Decoded, ps': seq<Learned>)
    requires EnvOk(env, pen) && Matches(ps, lists) && |ps| <= 8 * |env.data| && AlignedFor(env.mode, pos) && Inner2(key.place)
    requires Stand(env.data, pos, D.EndPiece(pen, lists, key).words[0].code)
    ensures var s := D.EndPiece(pen, lists, key); var code := s.words[0].code;
      && EventRead(env.data, env.mode, pos, GrammarFrame(KindOf(key.place), key.owner), ps, env.lim.options) == Some((d, pos + |code|))
      && AlignedFor(env.mode, pos + |code|) && |code| >= 1 && Matches(ps', s.lists) && |ps'| <= |ps| + 1
      && LearnedBy(Sess(sp, ps, log), env.lim, KindOf(key.place), key.owner, d, NO_NAME) == Some(Sess(sp, ps', log))
    ensures d.production.event == EndElement && d.production.pop
  {
    hide EventRead; hide Stand; hide D.Speak; hide LearnedBy; hide WithLearned; hide Matches; hide Stored; hide D.Code; hide D.Built;
    if key.place == D.Tag {
      d, ps' := SpeakReads(pen, env.data, pos, key, ps, lists, D.End);
      Learns(sp, ps, log, env.lim, key, D.End, d, ps');
    } else {
      ListShort(ps, lists, key);
      BuiltReads(pen, env.data, pos, key, ps, lists, EndElement);
      d, ps' := BuiltIn(ElementContent, EndElement), ps;
      NothingLearned(sp, ps, log, env.lim, KindOf(key.place), key.owner, d);
    }
  }

  lemma EndRuns(env: Env, pen: D.Pen, sp: Spot, ps: seq<Learned>, lists: D.Lists, log: seq<SinkEvent>, key: D.Key,
                pos: nat, i: nat) returns (ps': seq<Learned>)
    requires EnvOk(env, pen) && StandsAt(sp, key) && sp.open != [] && Matches(ps, lists) && Paced(env, ps, pos, i)
    requires Inner2(key.place) && Here(env, D.EndPiece(pen, lists, key).words, pos, i)
    ensures var s := D.EndPiece(pen, lists, key); var end := EndOf(s.words, pos);
      && |s.words| == 1 && Matches(ps', s.lists) && Paced(env, ps', end, i + 1) && end >= pos + 1
      && Go(env, Sess(sp, ps, log), pos, i) == Go(env, Sess(Closed(sp), ps', log + [Ended(sp.open[|sp.open| - 1])]), end, i + 1)
  {
    hide EventBy; hide NilRefuses; hide EndOf; hide Listed; hide D.Padded; hide FrameOf;
    hide EventRead; hide D.Spell; hide D.Delivered; hide Stand; hide D.Speak; hide LearnedBy; hide EndBy; hide WithLearned;
    hide Matches; hide Stored; hide D.Code; hide D.Built;
    var w := D.EndPiece(pen, lists, key).words[0];
    WordHere(env, w, pos, i);
    StandInside(env.data, pos, w.code);
    var d;
    d, ps' := EndIsRead(env, pen, sp, ps, lists, log, key, pos);
    Allowed(sp, ps, log, EndElement);
    Dispatches(Sess(sp, ps, log), env.lim, d, TopOf(sp.g), env.contents(i));
    EventRuns(env, sp, ps, log, w, pos, i, d);
    EndIs(sp, ps, log, env.lim, KindOf(key.place), key.owner, d, ps');
  }

  lemma NothingLearned(sp: Spot, ps: seq<Learned>, log: seq<SinkEvent>, lim: Limits, kind: GrammarKind, owner: nat, d: Decoded)
    requires !d.learn
    ensures LearnedBy(Sess(sp, ps, log), lim, kind, owner, d, NO_NAME) == Some(Sess(sp, ps, log))
  {
    FrameAt(sp, ps, log);
  }

  //
  // Simple types
  //

  lemma ZeroOfTwo(pen: D.Pen, data: seq<byte>, pos: nat) returns (next: nat)
    requires AlignedFor(pen.mode, pos) && Stand(data, pos, D.Code(pen, [D.Part(0, 2)]))
    ensures ChoiceRead(data, pen.mode, pos, 2) == Some((0, next)) && next == pos + |D.Code(pen, [D.Part(0, 2)])|
    ensures AlignedFor(pen.mode, next) && next >= pos + 1
  {
    hide ChoiceRead; hide ChoiceWritten; hide Stand;
    var part := D.Part(0, 2);
    TailsOf(part, part, part);
    next := PartReads(pen, data, pos, [part]);
  }

  /** The value of a simple type. */
  lemma TypedRuns(env: Env, pen: D.Pen, sp: Spot, ps: seq<Learned>, log: seq<SinkEvent>, w: D.Word, pos: nat, i: nat)
    requires EnvOk(env, pen) && sp.g != [] && TopOf(sp.g).kind == SchemaSimpleTypeContent && Quiet(sp) && Paced(env, ps, pos, i)
    requires w.code == D.Code(pen, [D.Part(0, 2)]) && D.Whole(pen, w.rest) && !w.pad && Here(env, [w], pos, i)
    ensures var end := EndOf([w], pos);
      && Paced(env, ps, end, i + 1) && end >= pos + 1
      && Go(env, Sess(sp, ps, log), pos, i) ==
           Go(env, Sess(Retop(sp, SchemaSimpleTypeEnd), ps, log + [Other(Characters)]), end, i + 1)
  {
    hide EventBy; hide NilRefuses; hide EndOf; hide Listed; hide D.Padded; hide FrameOf;
    hide ChoiceRead; hide D.Spell; hide D.Delivered; hide Stand; hide D.Code; hide D.Conveys; hide Go; hide Retop; hide SimpleBy;
    WordHere(env, w, pos, i);
    StandInside(env.data, pos, w.code);
    var next := ZeroOfTwo(pen, env.data, pos);
    var d := Plain(Characters, SchemaSimpleTypeEnd);
    Allowed(sp, ps, log, d.production.event);
    Dispatches(Sess(sp, ps, log), env.lim, d, TopOf(sp.g), env.contents(i));
    EventRuns(env, sp, ps, log, w, pos, i, d);
    ConveysEnd(env.contents(i), w, Last(w, pos));
    NothingLearned(sp, ps, log, env.lim, TopOf(sp.g).kind, TopOf(sp.g).owner, d);
    CharactersAre(Sess(sp, ps, log), Sess(sp, ps, log), env.lim, d, TopOf(sp.g).kind, TopOf(sp.g).owner, env.contents(i));
    Stays(sp, ps, log, env.lim, d, env.contents(i), Other(Characters));
  }

  lemma TypedEnds(env: Env, pen: D.Pen, sp: Spot, ps: seq<Learned>, log: seq<SinkEvent>, w: D.Word, pos: nat, i: nat)
    requires EnvOk(env, pen) && sp.g != [] && TopOf(sp.g).kind == SchemaSimpleTypeEnd && |sp.open| == |sp.nils| > 0
    requires Paced(env, ps, pos, i)
    requires w == D.Word(D.Code(pen, [D.Part(0, 2)]), [], D.Nothing) && Here(env, [w], pos, i)
    ensures var end := EndOf([w], pos);
      && Paced(env, ps, end, i + 1) && end >= pos + 1
      && Go(env, Sess(sp, ps, log), pos, i) == Go(env, Sess(Closed(sp), ps, log + [Ended(sp.open[|sp.open| - 1])]), end, i + 1)
  {
    hide EventBy; hide NilRefuses; hide EndOf; hide Listed; hide D.Padded; hide FrameOf;
    hide ChoiceRead; hide D.Spell; hide D.Delivered; hide Stand; hide D.Code; hide D.Conveys; hide Go; hide EndBy; hide LearnedBy;
    WordHere(env, w, pos, i);
    StandInside(env.data, pos, w.code);
    var next := ZeroOfTwo(pen, env.data, pos);
    var d := Decoded(Production(EndElement, SchemaSimpleTypeEnd, false, true));
    Allowed(sp, ps, log, d.production.event);
    Dispatches(Sess(sp, ps, log), env.lim, d, TopOf(sp.g), env.contents(i));
    EventRuns(env, sp, ps, log, w, pos, i, d);
    NothingLearned(sp, ps, log, env.lim, TopOf(sp.g).kind, TopOf(sp.g).owner, d);
    EndIs(sp, ps, log, env.lim, TopOf(sp.g).kind, TopOf(sp.g).owner, d, ps);
  }

  //
  // Fragments of their own
  //

  /** The fragment that the element on top opens. */
  function Nested(sp: Spot, ps: seq<Learned>): Spot
    requires sp.open != []
  {
    Spot(sp.below + [FrameOf(sp, ps)], sp.open[|sp.open| - 1], |sp.open|, false, [GrammarFrame(Fragment, NO_NAME)], sp.open, sp.nils)
  }

  lemma AloneRuns(env: Env, pen: D.Pen, sp: Spot, ps: seq<Learned>, lists: D.Lists, log: seq<SinkEvent>, owner: nat,
                  w: D.Word, pos: nat, i: nat)
    requires EnvOk(env, pen) && StandsAt(sp, D.Key(owner, D.Tag)) && sp.open != [] && Quiet(sp) && Matches(ps, lists)
    requires Paced(env, ps, pos, i) && pen.options.selfContained && Here(env, [w], pos, i)
    requires w == D.Word(D.Code(pen, D.Built(pen, D.Tag, |D.Of(lists, D.Key(owner, D.Tag))|, SelfContained)), [], D.Nothing, pad := true)
    ensures var end := EndOf([w], pos);
      && Paced(env, ps, end, i + 1) && end >= pos + 2
      && Go(env, Sess(sp, ps, log), pos, i) ==
           if |sp.below| + 1 >= env.lim.depth then None else Go(env, Sess(Nested(sp, ps), [], log), end, i + 1)
  {
    hide EventBy; hide NilRefuses; hide EndOf; hide Listed; hide D.Padded;
    hide EventRead; hide D.Spell; hide D.Delivered; hide Stand; hide Matches; hide D.Code; hide D.Built; hide D.Conveys; hide Go;
    hide BuiltIn;
    var key := D.Key(owner, D.Tag);
    WordHere(env, w, pos, i);
    StandInside(env.data, pos, w.code);
    ListShort(ps, lists, key);
    BuiltReads(pen, env.data, pos, key, ps, lists, SelfContained);
    BuiltEvent(StartTagContent, SelfContained);
    Allowed(sp, ps, log, BuiltIn(StartTagContent, SelfContained).production.event);
    Dispatches(Sess(sp, ps, log), env.lim, BuiltIn(StartTagContent, SelfContained), TopOf(sp.g), env.contents(i));
    EventRuns(env, sp, ps, log, w, pos, i, BuiltIn(StartTagContent, SelfContained));
    FrameAt(sp, ps, log);
  }

  /** The start of a document or fragment takes no bits. */
  lemma OpenRuns(env: Env, pen: D.Pen, sp: Spot, log: seq<SinkEvent>, kind: GrammarKind, w: D.Word, pos: nat, i: nat)
    requires EnvOk(env, pen) && sp.g == [GrammarFrame(kind, NO_NAME)] && (kind == Document || kind == Fragment) && Quiet(sp)
    requires AlignedFor(env.mode, pos) && i <= pos
    requires w == D.Word([], [], D.Nothing) && Here(env, [w], pos, i)
    ensures EndOf([w], pos) == pos && Paced(env, [], pos, i + 1)
    ensures var next := if kind == Document then DocContent else FragmentContent;
      Go(env, Sess(sp, [], log), pos, i) == Go(env, Sess(sp.(g := [GrammarFrame(next, NO_NAME)]), [], log), pos, i + 1)
  {
    hide EventBy; hide NilRefuses; hide EndOf; hide Listed; hide D.Padded; hide FrameOf;
    hide D.Spell; hide D.Delivered; hide Stand; hide D.Conveys; hide Go; hide MovedBy;
    WordHere(env, w, pos, i);
    var next := if kind == Document then DocContent else FragmentContent;
    var d := Plain(StartDocument, next);
    Allowed(sp, [], log, d.production.event);
    Dispatches(Sess(sp, [], log), env.lim, d, TopOf(sp.g), env.contents(i));
    EventRuns(env, sp, [], log, w, pos, i, d);
    Moves(sp, [], log, env.lim, d, NO_NAME);
    assert Transition(sp.g, d.production, NO_NAME) == [GrammarFrame(next, NO_NAME)];
  }

  lemma RootIs(sp: Spot, ps: seq<Learned>, log: seq<SinkEvent>, lim: Limits, e: D.Element, d: Decoded, ps': seq<Learned>,
               content: Content, w: D.Word)
    requires StandsAt(sp, D.Key(NO_NAME, D.Top)) && sp.below != [] && !sp.started && |ps'| <= lim.productions && e.qname < NO_NAME
    requires Reads(D.Key(NO_NAME, D.Top), StartElement, e.qname, d.learn, d) && D.Conveys(content, w, content.end)
    requires w.sense == D.ElementName(e.qname, e.name, d.learn) && SameName(e.name, sp.root)
    requires ps' == if d.learn then WithLearned(ps, Stored(D.Key(NO_NAME, D.Top), D.Start(e.qname))) else ps
    ensures StartBy(Sess(sp, ps, log), lim, d, FragmentContent, NO_NAME, content) ==
              if |sp.open| >= lim.depth || |sp.g| >= lim.depth then None
              else Some(Sess(Pushed(sp, FragmentContent, e.qname).(started := true), ps', log))
  {
    hide LearnedBy; hide MovedBy; hide WithLearned; hide Stored;
    Learns(sp, ps, log, lim, D.Key(NO_NAME, D.Top), D.Start(e.qname), d, ps');
    FrameAt(sp, ps, log);
    FrameAt(sp, ps', log);
    var on := sp.(started := true);
    Moves(on, ps', log, lim, d, e.qname);
    assert TopSet(Sess(sp, ps', log), FrameOf(sp, ps').(rootStarted := true)) == Sess(on, ps', log);
  }

  /** The root of a fragment of its own is the element that is open already. */
  lemma RootRuns(env: Env, pen: D.Pen, sp: Spot, ps: seq<Learned>, lists: D.Lists, log: seq<SinkEvent>, e: D.Element, pos: nat, i: nat)
    returns (ps': seq<Learned>)
    requires EnvOk(env, pen) && StandsAt(sp, D.Key(NO_NAME, D.Top)) && sp.below != [] && !sp.started && Quiet(sp)
    requires Matches(ps, lists) && Paced(env, ps, pos, i) && SameName(e.name, sp.root)
    requires D.NameOk(pen, e.qname, e.spelling) && Here(env, D.StartPiece(pen, lists, D.Key(NO_NAME, D.Top), e).words, pos, i)
    ensures var s := D.StartPiece(pen, lists, D.Key(NO_NAME, D.Top), e); var end := EndOf(s.words, pos);
      && Matches(ps', s.lists) && Paced(env, ps', end, i + 1) && end >= pos + 1
      && Go(env, Sess(sp, ps, log), pos, i) ==
           if |sp.open| >= env.lim.depth || |sp.g| >= env.lim.depth then None
           else Go(env, Sess(Pushed(sp, FragmentContent, e.qname).(started := true), ps', log), end, i + 1)
  {
    hide EventBy; hide NilRefuses; hide EndOf; hide Listed; hide D.Padded; hide FrameOf;
    hide EventRead; hide D.Spell; hide D.Delivered; hide Stand; hide D.Speak; hide StartBy; hide WithLearned; hide Go; hide D.Conveys;
    hide Matches; hide Stored;
    var key, x := D.Key(NO_NAME, D.Top), D.Start(e.qname);
    var w := D.StartPiece(pen, lists, key, e).words[0];
    WordHere(env, w, pos, i);
    StandInside(env.data, pos, w.code);
    var d;
    d, ps' := SpeakReads(pen, env.data, pos, key, ps, lists, x);
    Allowed(sp, ps, log, d.production.event);
    Dispatches(Sess(sp, ps, log), env.lim, d, TopOf(sp.g), env.contents(i));
    EventRuns(env, sp, ps, log, w, pos, i, d);
    ConveysEnd(env.contents(i), w, Last(w, pos));
    RootIs(sp, ps, log, env.lim, e, d, ps', env.contents(i), w);
  }

  /** The end of such a fragment is the end of its element in the one around it. */
  lemma ShutRuns(env: Env, pen: D.Pen, out: Spot, outer: seq<Learned>, sp: Spot, ps: seq<Learned>, lists: D.Lists, log: seq<SinkEvent>,
                 w: D.Word, pos: nat, i: nat)
    requires EnvOk(env, pen) && StandsAt(sp, D.Key(NO_NAME, D.Top)) && sp.below == out.below + [FrameOf(out, outer)] && sp.started
    requires |sp.open| + 1 == sp.depth && out.g != [] && Quiet(sp) && Matches(ps, lists) && Paced(env, ps, pos, i) && Here(env, [w], pos, i)
    requires w == D.Word(D.Code(pen, D.Built(pen, D.Top, |D.Of(lists, D.Key(NO_NAME, D.Top))|, EndDocument)), [], D.Nothing, pad := true)
    ensures var end := EndOf([w], pos);
      && Paced(env, ps, end, i + 1) && end >= pos + 1
      && Go(env, Sess(sp, ps, log), pos, i) ==
           Go(env, Sess(out.(g := out.g[..|out.g| - 1], open := sp.open, nils := sp.nils), outer, log), end, i + 1)
  {
    hide EventBy; hide NilRefuses; hide EndOf; hide Listed; hide D.Padded;
    hide EventRead; hide D.Spell; hide D.Delivered; hide Stand; hide Matches; hide D.Code; hide D.Built; hide D.Conveys; hide Go;
    WordHere(env, w, pos, i);
    StandInside(env.data, pos, w.code);
    ListShort(ps, lists, D.Key(NO_NAME, D.Top));
    TopReads(pen, env.data, pos, ps, lists, EndDocument);
    var d := Decoded(Production(EndDocument, FragmentContent, false, true));
    Allowed(sp, ps, log, d.production.event);
    Dispatches(Sess(sp, ps, log), env.lim, d, TopOf(sp.g), env.contents(i));
    EventRuns(env, sp, ps, log, w, pos, i, d);
    FrameAt(sp, ps, log);
    FrameAt(out, outer, log);
    assert Sess(sp, ps, log).frames[..|sp.below|] == sp.below;
  }

  //
  // Around the document element
  //

  predicate OuterOk(pen: D.Pen, note: D.Note, behind: bool) {
    D.NoteOk(pen, note) || (!behind && note.kind == Dtd && pen.options.preserveDtd && D.Whole(pen, note.text))
  }

  function OuterCode(pen: D.Pen, kind: EventKind, behind: bool): D.Bits {
    D.Code(pen, if behind then D.Epilog(pen, kind) else D.Prolog(pen, kind))
  }

  lemma EpilogReads(pen: D.Pen, data: seq<byte>, pos: nat, note: D.Note)
    requires AlignedFor(pen.mode, pos) && D.NoteOk(pen, note) && Stand(data, pos, D.Code(pen, D.Epilog(pen, note.kind)))
    ensures var code := D.Code(pen, D.Epilog(pen, note.kind));
      && DocumentEndEvent(data, pen.mode, pos, pen.options) == Some((Plain(note.kind, DocumentEnd), pos + |code|))
      && AlignedFor(pen.mode, pos + |code|) && |code| >= 1
  {
    hide ChoiceRead; hide ChoiceWritten; hide Stand;
    var third := D.Third(pen, note.kind);
    ThirdIs(pen.options, note.kind);
    TailsOf(D.Part(1, 2), third, third);
    var next := PartReads(pen, data, pos, [D.Part(1, 2), third]);
    TailsOf(third, third, third);
    var end := PartReads(pen, data, next, [third]);
  }

  lemma PrologReads(pen: D.Pen, data: seq<byte>, pos: nat, note: D.Note)
    requires AlignedFor(pen.mode, pos) && OuterOk(pen, note, false) && Stand(data, pos, D.Code(pen, D.Prolog(pen, note.kind)))
    ensures var code := D.Code(pen, D.Prolog(pen, note.kind));
      && DocContentEvent(data, pen.mode, pos, pen.options) == Some((Plain(note.kind, DocContent), pos + |code|))
      && AlignedFor(pen.mode, pos + |code|) && |code| >= 1
  {
    hide ChoiceRead; hide ChoiceWritten; hide Stand;
    var parts := D.Prolog(pen, note.kind);
    var third := D.Third(pen, note.kind);
    TailsOf(parts[0], parts[1], third);
    var next := PartReads(pen, data, pos, parts);
    var end := PartReads(pen, data, next, parts[1..]);
    if note.kind == Dtd {
      TailsOf(parts[1], third, third);
    } else {
      ThirdIs(pen.options, note.kind);
      TailsOf(parts[1], third, third);
      var last := PartReads(pen, data, end, [third]);
      TailsOf(third, third, third);
    }
  }

  lemma OuterReads(pen: D.Pen, data: seq<byte>, pos: nat, note: D.Note, behind: bool, ps: seq<Learned>)
    requires AlignedFor(pen.mode, pos) && OuterOk(pen, note, behind) && Stand(data, pos, OuterCode(pen, note.kind, behind))
    ensures var code := OuterCode(pen, note.kind, behind);
      var kind := if behind then DocumentEnd else DocContent;
      && EventRead(data, pen.mode, pos, GrammarFrame(kind, NO_NAME), ps, pen.options) == Some((Plain(note.kind, kind), pos + |code|))
      && AlignedFor(pen.mode, pos + |code|) && |code| >= 1
  {
    hide DocContentEvent; hide DocumentEndEvent; hide Stand; hide D.Code; hide D.Prolog; hide D.Epilog;
    if behind { EpilogReads(pen, data, pos, note); } else { PrologReads(pen, data, pos, note); }
  }

  /** A note in front of the document element or behind it. */
  lemma OuterRuns(env: Env, pen: D.Pen, sp: Spot, ps: seq<Learned>, log: seq<SinkEvent>, note: D.Note, behind: bool, w: D.Word,
                  pos: nat, i: nat)
    requires EnvOk(env, pen) && sp.g == [GrammarFrame(if behind then DocumentEnd else DocContent, NO_NAME)] && Quiet(sp)
    requires OuterOk(pen, note, behind) && Paced(env, ps, pos, i)
    requires w == D.Word(OuterCode(pen, note.kind, behind), note.text, D.Nothing) && Here(env, [w], pos, i)
    ensures var end := EndOf([w], pos);
      && Paced(env, ps, end, i + 1) && end >= pos + 1
      && Go(env, Sess(sp, ps, log), pos, i) == Go(env, Sess(sp, ps, log + [Other(note.kind)]), end, i + 1)
  {
    hide EventBy; hide NilRefuses; hide EndOf; hide Listed; hide D.Padded; hide FrameOf;
    hide EventRead; hide D.Spell; hide D.Delivered; hide Stand; hide OuterCode; hide D.Conveys; hide Go; hide SimpleBy; hide Retop;
    WordHere(env, w, pos, i);
    StandInside(env.data, pos, w.code);
    OuterReads(pen, env.data, pos, note, behind, ps);
    var kind := if behind then DocumentEnd else DocContent;
    var d := Plain(note.kind, kind);
    Allowed(sp, ps, log, d.production.event);
    Dispatches(Sess(sp, ps, log), env.lim, d, TopOf(sp.g), env.contents(i));
    EventRuns(env, sp, ps, log, w, pos, i, d);
    ConveysEnd(env.contents(i), w, Last(w, pos));
    Stays(sp, ps, log, env.lim, d, env.contents(i), Other(note.kind));
  }

  lemma RootReads(pen: D.Pen, data: seq<byte>, pos: nat)
    requires AlignedFor(pen.mode, pos) && Stand(data, pos, D.Code(pen, D.Prolog(pen, StartElement)))
    ensures var code := D.Code(pen, D.Prolog(pen, StartElement));
      && EventRead(data, pen.mode, pos, GrammarFrame(DocContent, NO_NAME), [], pen.options)
           == Some((Decoded(Production(StartElement, DocumentEnd, true, false), qnameEncoded := true), pos + |code|))
      && AlignedFor(pen.mode, pos + |code|)
  {
    hide ChoiceRead; hide ChoiceWritten; hide Stand;
    if D.Prolog(pen, StartElement) != [] {
      TailsOf(D.Part(0, 2), D.Part(0, 2), D.Part(0, 2));
      var next := PartReads(pen, data, pos, [D.Part(0, 2)]);
    }
  }

  lemma DocRootIs(sp: Spot, log: seq<SinkEvent>, lim: Limits, e: D.Element, content: Content, w: D.Word)
    requires sp.g == [GrammarFrame(DocContent, NO_NAME)] && sp.below == [] && e.qname < NO_NAME
    requires w.sense == D.ElementName(e.qname, e.name, true) && D.Conveys(content, w, content.end)
    ensures var d := Decoded(Production(StartElement, DocumentEnd, true, false), qnameEncoded := true);
      StartBy(Sess(sp, [], log), lim, d, DocContent, NO_NAME, content) ==
        if |sp.open| >= lim.depth || 1 >= lim.depth then None
        else Some(Sess(Opened(sp, DocumentEnd, e), [], log + [Started(e.name)]))
  {
    hide MovedBy; hide LearnedBy;
    var d := Decoded(Production(StartElement, DocumentEnd, true, false), qnameEncoded := true);
    LearnsNone(sp, log, lim, d, e.qname);
    FrameAt(sp, [], log);
    var wider := sp.(open := sp.open + [e.name], nils := sp.nils + [false]);
    Moves(wider, [], log + [Started(e.name)], lim, d, e.qname);
  }

  lemma LearnsNone(sp: Spot, log: seq<SinkEvent>, lim: Limits, d: Decoded, qname: nat)
    requires !d.learn
    ensures LearnedBy(Sess(sp, [], log), lim, DocContent, NO_NAME, d, qname) == Some(Sess(sp, [], log))
  {
    FrameAt(sp, [], log);
  }

  /** The document element, whose name is always spelled out. */
  lemma DocRootRuns(env: Env, pen: D.Pen, sp: Spot, log: seq<SinkEvent>, e: D.Element, w: D.Word, pos: nat, i: nat)
    requires EnvOk(env, pen) && sp.g == [GrammarFrame(DocContent, NO_NAME)] && sp.below == [] && Quiet(sp)
    requires Paced(env, [], pos, i) && D.NameOk(pen, e.qname, e.spelling) && Here(env, [w], pos, i)
    requires w == D.Word(D.Code(pen, D.Prolog(pen, StartElement)), e.spelling, D.ElementName(e.qname, e.name, true))
    ensures var end := EndOf([w], pos);
      && Paced(env, [], end, i + 1) && end >= pos + 2
      && Go(env, Sess(sp, [], log), pos, i) ==
           if |sp.open| >= env.lim.depth || 1 >= env.lim.depth then None
           else Go(env, Sess(Opened(sp, DocumentEnd, e), [], log + [Started(e.name)]), end, i + 1)
  {
    hide EventBy; hide NilRefuses; hide EndOf; hide Listed; hide D.Padded; hide FrameOf;
    hide EventRead; hide D.Spell; hide D.Delivered; hide Stand; hide D.Code; hide D.Conveys; hide Go; hide StartBy;
    WordHere(env, w, pos, i);
    StandInside(env.data, pos, w.code);
    RootReads(pen, env.data, pos);
    Allowed(sp, [], log, Decoded(Production(StartElement, DocumentEnd, true, false), qnameEncoded := true).production.event);
    Dispatches(Sess(sp, [], log), env.lim, Decoded(Production(StartElement, DocumentEnd, true, false), qnameEncoded := true),
               TopOf(sp.g), env.contents(i));
    EventRuns(env, sp, [], log, w, pos, i, Decoded(Production(StartElement, DocumentEnd, true, false), qnameEncoded := true));
    ConveysEnd(env.contents(i), w, Last(w, pos));
    DocRootIs(sp, log, env.lim, e, env.contents(i), w);
  }

  lemma EndReads(pen: D.Pen, data: seq<byte>, pos: nat)
    requires AlignedFor(pen.mode, pos) && Stand(data, pos, D.Code(pen, D.Epilog(pen, EndDocument)))
    ensures EventRead(data, pen.mode, pos, GrammarFrame(DocumentEnd, NO_NAME), [], pen.options)
         == Some((Decoded(Production(EndDocument, DocumentEnd, false, true)), pos + |D.Code(pen, D.Epilog(pen, EndDocument))|))
  {
    hide ChoiceRead; hide ChoiceWritten; hide Stand;
    if D.Epilog(pen, EndDocument) != [] {
      TailsOf(D.Part(0, 2), D.Part(0, 2), D.Part(0, 2));
      var next := PartReads(pen, data, pos, [D.Part(0, 2)]);
    }
  }

  /** The end of the document finishes. */
  lemma DocEndRuns(env: Env, pen: D.Pen, sp: Spot, ps: seq<Learned>, log: seq<SinkEvent>, w: D.Word, pos: nat, i: nat)
    requires EnvOk(env, pen) && sp.g == [GrammarFrame(DocumentEnd, NO_NAME)] && sp.below == [] && Quiet(sp)
    requires AlignedFor(env.mode, pos) && i <= pos && Here(env, [w], pos, i)
    requires w == D.Word(D.Code(pen, D.Epilog(pen, EndDocument)), [], D.Nothing)
    ensures Go(env, Sess(sp, ps, log), pos, i) == Some(Sess(sp, ps, log).(finished := true))
  {
    hide EventBy; hide NilRefuses; hide EndOf; hide Listed; hide D.Padded;
    hide EventRead; hide D.Spell; hide D.Delivered; hide Stand; hide D.Code; hide D.Conveys; hide Go;
    WordHere(env, w, pos, i);
    EndReads(pen, env.data, pos);
    assert EventRead(env.data, env.mode, pos, TopOf(sp.g), ps, env.lim.options)
        == EventRead(env.data, env.mode, pos, TopOf(sp.g), [], env.lim.options) by { NotLearned(env, pos, ps); }
    Allowed(sp, ps, log, Decoded(Production(EndDocument, DocumentEnd, false, true)).production.event);
    Dispatches(Sess(sp, ps, log), env.lim, Decoded(Production(EndDocument, DocumentEnd, false, true)), TopOf(sp.g), env.contents(i));
    EventRuns(env, sp, ps, log, w, pos, i, Decoded(Production(EndDocument, DocumentEnd, false, true)));
  }

  lemma NotLearned(env: Env, pos: nat, ps: seq<Learned>)
    ensures EventRead(env.data, env.mode, pos, GrammarFrame(DocumentEnd, NO_NAME), ps, env.lim.options)
         == EventRead(env.data, env.mode, pos, GrammarFrame(DocumentEnd, NO_NAME), [], env.lim.options)
  {
  }

  lemma FragmentEndRuns(env: Env, pen: D.Pen, sp: Spot, ps: seq<Learned>, lists: D.Lists, log: seq<SinkEvent>, w: D.Word, pos: nat, i: nat)
    requires EnvOk(env, pen) && StandsAt(sp, D.Key(NO_NAME, D.Top)) && sp.below == [] && Quiet(sp)
    requires Matches(ps, lists) && Paced(env, ps, pos, i) && Here(env, [w], pos, i)
    requires w == D.Word(D.Code(pen, D.Built(pen, D.Top, |D.Of(lists, D.Key(NO_NAME, D.Top))|, EndDocument)), [], D.Nothing)
    ensures Go(env, Sess(sp, ps, log), pos, i) == Some(Sess(sp, ps, log).(finished := true))
  {
    hide EventBy; hide NilRefuses; hide EndOf; hide Listed; hide D.Padded;
    hide EventRead; hide D.Spell; hide D.Delivered; hide Stand; hide D.Code; hide D.Conveys; hide Go; hide Matches; hide D.Built;
    WordHere(env, w, pos, i);
    StandInside(env.data, pos, w.code);
    ListShort(ps, lists, D.Key(NO_NAME, D.Top));
    TopReads(pen, env.data, pos, ps, lists, EndDocument);
    Allowed(sp, ps, log, Decoded(Production(EndDocument, FragmentContent, false, true)).production.event);
    Dispatches(Sess(sp, ps, log), env.lim, Decoded(Production(EndDocument, FragmentContent, false, true)), TopOf(sp.g), env.contents(i));
    EventRuns(env, sp, ps, log, w, pos, i, Decoded(Production(EndDocument, FragmentContent, false, true)));
  }
}
