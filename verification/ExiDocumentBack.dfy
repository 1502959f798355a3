// Whole documents and fragments, decoded: the event loop tells the sink the events of the tree the encoder
// walked, exactly when the tree is not nested deeper than the decoder's stacks are high.
module ExiDocumentBack {
  import opened Common
  import opened ExiBits
  import opened ExiGrammars
  import opened ExiEvents
  import opened ExiSpoken
  import opened ExiTurns
  import D = ExiDocument

  /** No element is marked nil. */
  predicate Calm(nils: seq<bool>) {
    forall k :: 0 <= k < |nils| ==> !nils[k]
  }

  /**
   * What the words from `pos` on do: with room for them, the session they lead to, behind them all; without,
   * the loop fails.
   */
  ghost predicate Ran(env: Env, sp: Spot, ps: seq<Learned>, log: seq<SinkEvent>, pos: nat, i: nat, words: seq<D.Word>, room: bool,
                      sp': Spot, ps': seq<Learned>, log': seq<SinkEvent>, lists': D.Lists) {
    var end := EndOf(words, pos);
    if room then
      && Go(env, Sess(sp, ps, log), pos, i) == Go(env, Sess(sp', ps', log'), end, i + |words|)
      && Matches(ps', lists') && Paced(env, ps', end, i + |words|) && end >= pos + |words|
    else Go(env, Sess(sp, ps, log), pos, i) == None
  }

  /** One piece behind another. */
  lemma Follows(env: Env, sp: Spot, ps: seq<Learned>, log: seq<SinkEvent>, pos: nat, i: nat, a: seq<D.Word>, roomA: bool,
                mid: Spot, ps1: seq<Learned>, log1: seq<SinkEvent>, lists1: D.Lists, b: seq<D.Word>, roomB: bool,
                sp': Spot, ps': seq<Learned>, log': seq<SinkEvent>, lists': D.Lists)
    requires Ran(env, sp, ps, log, pos, i, a, roomA, mid, ps1, log1, lists1)
    requires EndOf(a + b, pos) == EndOf(b, EndOf(a, pos))
    requires roomA ==> Ran(env, mid, ps1, log1, EndOf(a, pos), i + |a|, b, roomB, sp', ps', log', lists')
    ensures Ran(env, sp, ps, log, pos, i, a + b, roomA && roomB, sp', ps', log', lists')
  {
    hide Matches; hide Go; hide EndOf;
  }

  lemma RanOn(env: Env, sp: Spot, ps: seq<Learned>, log: seq<SinkEvent>, pos: nat, i: nat, words: seq<D.Word>,
              sp': Spot, ps': seq<Learned>, log': seq<SinkEvent>, lists': D.Lists)
    requires Ran(env, sp, ps, log, pos, i, words, true, sp', ps', log', lists')
    ensures Matches(ps', lists') && Paced(env, ps', EndOf(words, pos), i + |words|)
  {
  }

  lemma NoWords(env: Env, sp: Spot, ps: seq<Learned>, log: seq<SinkEvent>, lists: D.Lists, pos: nat, i: nat)
    requires Matches(ps, lists) && Paced(env, ps, pos, i)
    ensures Ran(env, sp, ps, log, pos, i, [], true, sp, ps, log, lists)
  {
    hide Matches; hide Go;
  }

  //
  // The tag of an element
  //

  /** Whether the element is marked nil behind the marks, when it was before. */
  predicate NilWith(before: bool, marks: seq<D.Mark>)
    decreases |marks|
  {
    if marks == [] then before
    else
      var m := marks[|marks| - 1];
      if m.Attribute? && m.nil.Some? then m.nil.value else NilWith(before, marks[..|marks| - 1])
  }

  lemma {:induction false} NilIs(marks: seq<D.Mark>)
    ensures NilWith(false, marks) == D.NilBy(marks)
    decreases |marks|
  {
    if marks != [] { NilIs(marks[..|marks| - 1]); }
  }

  lemma {:induction false} NilFront(before: bool, marks: seq<D.Mark>)
    requires marks != []
    ensures NilWith(before, marks) == NilWith(NilWith(before, marks[..1]), marks[1..])
    decreases |marks|
  {
    if |marks| == 1 {
      assert marks[..1] == marks;
    } else {
      var front := marks[..|marks| - 1];
      NilFront(before, front);
      assert marks[1..][..|marks| - 2] == front[1..];
      assert front[..1] == marks[..1];
    }
  }

  lemma {:induction false} RenamedFront(name: Name, marks: seq<D.Mark>)
    requires marks != []
    ensures D.Renamed(name, marks) == D.Renamed(D.Renamed(name, marks[..1]), marks[1..])
    decreases |marks|
  {
    if |marks| == 1 {
      assert marks[..1] == marks;
    } else {
      var front := marks[..|marks| - 1];
      RenamedFront(name, front);
      assert marks[1..][..|marks| - 2] == front[1..];
      assert front[..1] == marks[..1];
      RenamedSame(name, marks[..1]);
    }
  }

  lemma {:induction false} RenamedSame(name: Name, marks: seq<D.Mark>)
    ensures SameName(D.Renamed(name, marks), name)
    ensures forall p: Text :: D.Renamed(name, marks).(prefix := p) == name.(prefix := p)
    decreases |marks|
  {
    if marks != [] { RenamedSame(name, marks[..|marks| - 1]); }
  }

  /** The element behind its tag. */
  function Tagged(sp: Spot, marks: seq<D.Mark>): Spot
    requires sp.open != [] && |sp.open| == |sp.nils|
  {
    var n := |sp.open| - 1;
    sp.(open := sp.open[n := D.Renamed(sp.open[n], marks)], nils := sp.nils[n := NilWith(sp.nils[n], marks)])
  }

  lemma OneTagged(sp: Spot, m: D.Mark)
    requires sp.open != [] && |sp.open| == |sp.nils|
    ensures Marked(sp, m) == Tagged(sp, [m])
  {
    var n := |sp.open| - 1;
    assert [m][..0] == [];
    assert D.Renamed(sp.open[n], []) == sp.open[n] && NilWith(sp.nils[n], []) == sp.nils[n];
    assert sp.open[n := sp.open[n]] == sp.open && sp.nils[n := sp.nils[n]] == sp.nils;
  }

  lemma TaggedFront(sp: Spot, marks: seq<D.Mark>)
    requires sp.open != [] && |sp.open| == |sp.nils| && marks != []
    ensures Tagged(Marked(sp, marks[0]), marks[1..]) == Tagged(sp, marks)
  {
    OneTagged(sp, marks[0]);
    assert marks[..1] == [marks[0]];
    var n := |sp.open| - 1;
    NilFront(sp.nils[n], marks);
    RenamedFront(sp.open[n], marks);
  }

  lemma {:induction false} MarksRun(env: Env, pen: D.Pen, sp: Spot, ps: seq<Learned>, lists: D.Lists, log: seq<SinkEvent>, owner: nat,
                                    marks: seq<D.Mark>, pos: nat, i: nat) returns (ps': seq<Learned>)
    requires EnvOk(env, pen) && StandsAt(sp, D.Key(owner, D.Tag)) && sp.open != [] && Matches(ps, lists)
    requires Paced(env, ps, pos, i) && forall m <- marks :: D.MarkOk(pen, m)
    requires Here(env, D.MarksPiece(pen, lists, owner, marks).words, pos, i)
    ensures var s := D.MarksPiece(pen, lists, owner, marks);
      Ran(env, sp, ps, log, pos, i, s.words, true, Tagged(sp, marks), ps', log + D.MarkEvents(marks), s.lists)
    decreases |marks|
  {
    hide Matches; hide Here; hide D.MarkPiece; hide Go; hide D.MarkOk;
    if marks == [] {
      ps' := ps;
      NoWords(env, sp, ps, log, lists, pos, i);
      TaggedNone(sp);
      assert log + D.MarkEvents([]) == log;
    } else {
      var first := D.MarkPiece(pen, lists, owner, marks[0], false);
      var rest := D.MarksPiece(pen, first.lists, owner, marks[1..]);
      HereJoined(env, first.words, rest.words, pos, i);
      var ps1 := MarkRuns(env, pen, sp, ps, lists, log, owner, marks[0], false, pos, i);
      var sp1, log1 := Marked(sp, marks[0]), log + [D.MarkEvent(marks[0])];
      StillAt(sp, marks[0], owner);
      ps' := MarksRun(env, pen, sp1, ps1, first.lists, log1, owner, marks[1..], EndOf(first.words, pos), i + 1);
      TaggedFront(sp, marks);
      assert log1 + D.MarkEvents(marks[1..]) == log + D.MarkEvents(marks);
      Follows(env, sp, ps, log, pos, i, first.words, true, sp1, ps1, log1, first.lists, rest.words, true,
              Tagged(sp, marks), ps', log + D.MarkEvents(marks), rest.lists);
    }
  }

  lemma TaggedNone(sp: Spot)
    requires sp.open != [] && |sp.open| == |sp.nils|
    ensures Tagged(sp, []) == sp
  {
    var n := |sp.open| - 1;
    assert sp.open[n := sp.open[n]] == sp.open && sp.nils[n := sp.nils[n]] == sp.nils;
  }

  lemma StillAt(sp: Spot, m: D.Mark, owner: nat)
    requires StandsAt(sp, D.Key(owner, D.Tag)) && sp.open != []
    ensures StandsAt(Marked(sp, m), D.Key(owner, D.Tag)) && Marked(sp, m).open != []
  {
  }

  lemma {:induction false} NotesRun(env: Env, pen: D.Pen, sp: Spot, ps: seq<Learned>, lists: D.Lists, log: seq<SinkEvent>,
                                    notes: seq<D.Note>, pos: nat, i: nat)
    requires EnvOk(env, pen) && StandsAt(sp, D.Key(NO_NAME, D.Top)) && Quiet(sp) && Matches(ps, lists) && Paced(env, ps, pos, i)
    requires forall n <- notes :: D.NoteOk(pen, n)
    requires Here(env, D.NoteWords(pen, lists, notes), pos, i)
    ensures Ran(env, sp, ps, log, pos, i, D.NoteWords(pen, lists, notes), true, sp, ps, log + D.NoteEvents(notes), lists)
    decreases |notes|
  {
    hide Matches; hide Here; hide D.NoteWord; hide Go; hide D.NoteOk;
    if notes == [] {
      NoWords(env, sp, ps, log, lists, pos, i);
      assert log + D.NoteEvents([]) == log;
    } else {
      var a, b := [D.NoteWord(pen, lists, D.Key(NO_NAME, D.Top), notes[0])], D.NoteWords(pen, lists, notes[1..]);
      HereJoined(env, a, b, pos, i);
      NoteRuns(env, pen, sp, ps, lists, log, D.Key(NO_NAME, D.Top), notes[0], pos, i);
      RetopSame(sp, FragmentContent);
      var log1 := log + [Other(notes[0].kind)];
      NotesRun(env, pen, sp, ps, lists, log1, notes[1..], EndOf(a, pos), i + 1);
      assert log1 + D.NoteEvents(notes[1..]) == log + D.NoteEvents(notes);
      Follows(env, sp, ps, log, pos, i, a, true, sp, ps, log1, lists, b, true, sp, ps, log + D.NoteEvents(notes), lists);
    }
  }

  lemma RetopSame(sp: Spot, kind: GrammarKind)
    requires sp.g != [] && TopOf(sp.g).kind == kind
    ensures Retop(sp, kind) == sp
  {
    assert Retop(sp, kind).g == sp.g;
  }

  //
  // Elements marked nil
  //

  /** What an element marked nil cannot hold is refused. */
  lemma NilStops(env: Env, sp: Spot, ps: seq<Learned>, log: seq<SinkEvent>, w: D.Word, pos: nat, i: nat, d: Decoded)
    requires sp.g != [] && i <= 8 * |env.data| && |sp.open| == |sp.nils| > 0 && sp.nils[|sp.nils| - 1]
    requires EventRead(env.data, env.mode, pos, TopOf(sp.g), ps, env.lim.options) == Some((d, pos + |w.code|))
    requires d.production.event !in {Attribute, NamespaceDeclaration, EndElement}
    ensures Go(env, Sess(sp, ps, log), pos, i) == None
  {
    hide EventRead; hide EventBy;
    FrameAt(sp, ps, log);
  }

  /** So is a first child node. */
  lemma NilChild(env: Env, pen: D.Pen, sp: Spot, ps: seq<Learned>, lists: D.Lists, log: seq<SinkEvent>, owner: nat, node: D.Node,
                 pos: nat, i: nat)
    requires EnvOk(env, pen) && StandsAt(sp, D.Key(owner, D.Tag)) && sp.open != [] && sp.nils[|sp.nils| - 1]
    requires Matches(ps, lists) && Paced(env, ps, pos, i) && D.NodeOk(pen, node, false)
    requires Here(env, D.NodePiece(pen, lists, D.Key(owner, D.Tag), node).words, pos, i)
    ensures Go(env, Sess(sp, ps, log), pos, i) == None
  {
    hide EventRead; hide D.Spell; hide D.Delivered; hide Stand; hide D.Speak; hide Go; hide Matches; hide D.Code; hide D.Built;
    hide WithLearned; hide Stored;
    var key := D.Key(owner, D.Tag);
    var words := D.NodePiece(pen, lists, key, node).words;
    var w := words[0];
    assert words == [w] + words[1..];
    HereJoined(env, [w], words[1..], pos, i);
    WordHere(env, w, pos, i);
    StandInside(env.data, pos, w.code);
    match node
    case Child(e) =>
      var d, ps' := SpeakReads(pen, env.data, pos, key, ps, lists, D.Start(e.qname));
      NilStops(env, sp, ps, log, w, pos, i, d);
    case Characters(_) =>
      var d, ps' := SpeakReads(pen, env.data, pos, key, ps, lists, D.Chars);
      NilStops(env, sp, ps, log, w, pos, i, d);
    case Aside(note) =>
      ListShort(ps, lists, key);
      BuiltReads(pen, env.data, pos, key, ps, lists, note.kind);
      BuiltEvent(StartTagContent, note.kind);
      NilStops(env, sp, ps, log, w, pos, i, BuiltIn(StartTagContent, note.kind));
  }

  lemma NilAlone(env: Env, pen: D.Pen, sp: Spot, ps: seq<Learned>, lists: D.Lists, log: seq<SinkEvent>, owner: nat, w: D.Word,
                 pos: nat, i: nat)
    requires EnvOk(env, pen) && StandsAt(sp, D.Key(owner, D.Tag)) && sp.open != [] && sp.nils[|sp.nils| - 1]
    requires Matches(ps, lists) && Paced(env, ps, pos, i) && pen.options.selfContained && Here(env, [w], pos, i)
    requires w.code == D.Code(pen, D.Built(pen, D.Tag, |D.Of(lists, D.Key(owner, D.Tag))|, SelfContained))
    ensures Go(env, Sess(sp, ps, log), pos, i) == None
  {
    hide EventRead; hide D.Spell; hide D.Delivered; hide Stand; hide Go; hide Matches; hide D.Code; hide D.Built;
    var key := D.Key(owner, D.Tag);
    WordHere(env, w, pos, i);
    StandInside(env.data, pos, w.code);
    ListShort(ps, lists, key);
    BuiltReads(pen, env.data, pos, key, ps, lists, SelfContained);
    BuiltEvent(StartTagContent, SelfContained);
    NilStops(env, sp, ps, log, w, pos, i, BuiltIn(StartTagContent, SelfContained));
  }

  lemma NilTyped(env: Env, pen: D.Pen, sp: Spot, ps: seq<Learned>, log: seq<SinkEvent>, w: D.Word, pos: nat, i: nat)
    requires EnvOk(env, pen) && sp.g != [] && TopOf(sp.g).kind == SchemaSimpleTypeContent
    requires |sp.open| == |sp.nils| > 0 && sp.nils[|sp.nils| - 1] && Paced(env, ps, pos, i)
    requires w.code == D.Code(pen, [D.Part(0, 2)]) && Here(env, [w], pos, i)
    ensures Go(env, Sess(sp, ps, log), pos, i) == None
  {
    hide ChoiceRead; hide D.Spell; hide D.Delivered; hide Stand; hide D.Code; hide Go;
    WordHere(env, w, pos, i);
    StandInside(env.data, pos, w.code);
    var next := ZeroOfTwo(pen, env.data, pos);
    NilStops(env, sp, ps, log, w, pos, i, Plain(Characters, SchemaSimpleTypeEnd));
  }

  //
  // Elements
  //

  /** The element on top of the stacks stands in its start tag, unmarked. */
  predicate InTag(sp: Spot, owner: nat) {
    StandsAt(sp, D.Key(owner, D.Tag)) && sp.open != [] && Calm(sp.nils) && Starts(sp)
  }

  /** The value of a simple type and the end of its element. */
  lemma TypedTail(env: Env, pen: D.Pen, sp: Spot, ps: seq<Learned>, lists: D.Lists, log: seq<SinkEvent>, text: D.Bits, pos: nat, i: nat)
    requires EnvOk(env, pen) && sp.g != [] && TopOf(sp.g).kind == SchemaSimpleTypeContent && |sp.open| == |sp.nils| > 0
    requires Matches(ps, lists) && Paced(env, ps, pos, i) && D.Whole(pen, text)
    requires Here(env, TypedWords(pen, text), pos, i)
    ensures var n := |sp.open| - 1;
      Ran(env, sp, ps, log, pos, i, TypedWords(pen, text), !sp.nils[n], Closed(sp), ps, log + [Other(Characters), Ended(sp.open[n])],
          lists)
  {
    hide Matches; hide Here; hide Go; hide D.Code; hide EndOf; hide Paced; hide Sess;
    var value, end := TypedWords(pen, text)[0], TypedWords(pen, text)[1];
    assert TypedWords(pen, text) == [value] + [end];
    HereJoined(env, [value], [end], pos, i);
    var n := |sp.open| - 1;
    if sp.nils[n] {
      NilTyped(env, pen, sp, ps, log, value, pos, i);
    } else {
      var sp1, log1 := Retop(sp, SchemaSimpleTypeEnd), log + [Other(Characters)];
      TypedRuns(env, pen, sp, ps, log, value, pos, i);
      TypedEnds(env, pen, sp1, ps, log1, end, EndOf([value], pos), i + 1);
      assert Closed(sp1) == Closed(sp);
      assert log1 + [Ended(sp.open[n])] == log + [Other(Characters), Ended(sp.open[n])];
    }
  }

  function TypedWords(pen: D.Pen, text: D.Bits): seq<D.Word> {
    [D.Word(D.Code(pen, [D.Part(0, 2)]), text, D.Nothing), D.Word(D.Code(pen, [D.Part(0, 2)]), [], D.Nothing)]
  }

  lemma TypedBody(env: Env, pen: D.Pen, sp: Spot, ps: seq<Learned>, lists: D.Lists, log: seq<SinkEvent>, owner: nat,
                  body: D.Body, pos: nat, i: nat) returns (ps': seq<Learned>)
    requires EnvOk(env, pen) && StandsAt(sp, D.Key(owner, D.Tag)) && sp.open != []
    requires Matches(ps, lists) && Paced(env, ps, pos, i) && body.Typed? && D.BodyOk(pen, sp.open[|sp.open| - 1], body)
    requires Here(env, D.BodyPiece(pen, lists, owner, body).words, pos, i)
    ensures var s := D.BodyPiece(pen, lists, owner, body); var n := |sp.open| - 1;
      Ran(env, sp, ps, log, pos, i, s.words, !sp.nils[n], Closed(sp), ps', log + D.BodyEvents(sp.open[n], body), s.lists)
  {
    hide Matches; hide Here; hide D.MarkPiece; hide Go; hide D.MarkOk; hide D.Code; hide D.MarkEvent; hide EndOf; hide Paced;
    var m := body.selection;
    var n := |sp.open| - 1;
    var first, tail := D.MarkPiece(pen, lists, owner, m, true), TypedWords(pen, body.text);
    HereJoined(env, first.words, tail, pos, i);
    ps' := MarkRuns(env, pen, sp, ps, lists, log, owner, m, true, pos, i);
    assert Marked(sp, m) == sp;
    var sp1, log1 := Retop(sp, SchemaSimpleTypeContent), log + [D.MarkEvent(m)];
    TypedTail(env, pen, sp1, ps', first.lists, log1, body.text, EndOf(first.words, pos), i + 1);
    assert Closed(sp1) == Closed(sp);
    assert log1 + [Other(Characters), Ended(sp.open[n])] == log + D.BodyEvents(sp.open[n], body);
    Follows(env, sp, ps, log, pos, i, first.words, true, sp1, ps', log1, first.lists, tail, !sp.nils[n],
            Closed(sp), ps', log + D.BodyEvents(sp.open[n], body), first.lists);
  }

  /** From the name of an element to its end. */
  lemma {:induction false} InnerRuns(env: Env, pen: D.Pen, sp: Spot, ps: seq<Learned>, lists: D.Lists, log: seq<SinkEvent>,
                                     owner: nat, name: Name, tag: seq<D.Mark>, body: D.Body, pos: nat, i: nat)
    returns (ps': seq<Learned>)
    requires EnvOk(env, pen) && InTag(sp, owner) && Matches(ps, lists) && Paced(env, ps, pos, i)
    requires (forall m <- tag :: D.MarkOk(pen, m)) && D.BodyOk(pen, name, body) && SameName(sp.open[|sp.open| - 1], name)
    requires Here(env, D.InnerPiece(pen, lists, owner, tag, body).words, pos, i)
    ensures var s := D.InnerPiece(pen, lists, owner, tag, body);
      Ran(env, sp, ps, log, pos, i, s.words,
          D.BodyRoom(D.NilBy(tag), body, |sp.open|, |sp.g|, |sp.below| + 1, env.lim.depth),
          Closed(sp), ps', log + D.InnerEvents(sp.open[|sp.open| - 1], tag, body), s.lists)
    decreases body, 2
  {
    hide Matches; hide Here; hide D.MarksPiece; hide D.BodyPiece; hide Go; hide D.BodyOk; hide D.BodyRoom; hide D.BodyEvents; hide Ran;
    hide Calm;
    var marks := D.MarksPiece(pen, lists, owner, tag);
    var rest := D.BodyPiece(pen, marks.lists, owner, body);
    HereJoined(env, marks.words, rest.words, pos, i);
    var ps1 := MarksRun(env, pen, sp, ps, lists, log, owner, tag, pos, i);
    var sp1, log1 := Tagged(sp, tag), log + D.MarkEvents(tag);
    var n := |sp.open| - 1;
    RanOn(env, sp, ps, log, pos, i, marks.words, sp1, ps1, log1, marks.lists);
    LastCalm(sp);
    NilIs(tag);
    RenamedSame(sp.open[n], tag);
    ps' := BodyRuns(env, pen, sp1, ps1, marks.lists, log1, owner, name, body, EndOf(marks.words, pos), i + |marks.words|);
    assert Closed(sp1) == Closed(sp);
    assert log1 + D.BodyEvents(sp1.open[n], body) == log + D.InnerEvents(sp.open[n], tag, body);
    Follows(env, sp, ps, log, pos, i, marks.words, true, sp1, ps1, log1, marks.lists, rest.words,
            D.BodyRoom(D.NilBy(tag), body, |sp.open|, |sp.g|, |sp.below| + 1, env.lim.depth),
            Closed(sp), ps', log + D.InnerEvents(sp.open[n], tag, body), rest.lists);
  }

  lemma LastCalm(sp: Spot)
    requires Calm(sp.nils) && sp.nils != []
    ensures !sp.nils[|sp.nils| - 1] && Calm(sp.nils[..|sp.nils| - 1])
  {
  }

  lemma {:induction false} BodyRuns(env: Env, pen: D.Pen, sp: Spot, ps: seq<Learned>, lists: D.Lists, log: seq<SinkEvent>,
                                    owner: nat, name: Name, body: D.Body, pos: nat, i: nat)
    returns (ps': seq<Learned>)
    requires EnvOk(env, pen) && StandsAt(sp, D.Key(owner, D.Tag)) && sp.open != [] && Starts(sp) && Calm(sp.nils[..|sp.nils| - 1])
    requires Matches(ps, lists) && Paced(env, ps, pos, i)
    requires D.BodyOk(pen, name, body) && SameName(sp.open[|sp.open| - 1], name)
    requires Here(env, D.BodyPiece(pen, lists, owner, body).words, pos, i)
    ensures var s := D.BodyPiece(pen, lists, owner, body); var n := |sp.open| - 1;
      Ran(env, sp, ps, log, pos, i, s.words, D.BodyRoom(sp.nils[n], body, |sp.open|, |sp.g|, |sp.below| + 1, env.lim.depth),
          Closed(sp), ps', log + D.BodyEvents(sp.open[n], body), s.lists)
    decreases body, 1
  {
    hide Matches; hide Here; hide Go; hide Ran; hide D.BodyPiece; hide D.BodyEvents; hide Calm;
    match body
    case Children(nodes) => ps' := ChildrenRun(env, pen, sp, ps, lists, log, owner, nodes, pos, i);
    case Typed(_, _) => ps' := TypedBody(env, pen, sp, ps, lists, log, owner, body, pos, i);
    case Alone(before, root, after) => ps' := AloneRun(env, pen, sp, ps, lists, log, owner, name, body, pos, i);
  }

  lemma {:induction false} ChildrenRun(env: Env, pen: D.Pen, sp: Spot, ps: seq<Learned>, lists: D.Lists, log: seq<SinkEvent>,
                                       owner: nat, nodes: seq<D.Node>, pos: nat, i: nat)
    returns (ps': seq<Learned>)
    requires EnvOk(env, pen) && StandsAt(sp, D.Key(owner, D.Tag)) && sp.open != [] && Starts(sp) && Calm(sp.nils[..|sp.nils| - 1])
    requires Matches(ps, lists) && Paced(env, ps, pos, i) && forall n <- nodes :: D.NodeOk(pen, n, false)
    requires Here(env, D.BodyPiece(pen, lists, owner, D.Children(nodes)).words, pos, i)
    ensures var body := D.Children(nodes); var s := D.BodyPiece(pen, lists, owner, body); var n := |sp.open| - 1;
      Ran(env, sp, ps, log, pos, i, s.words, D.BodyRoom(sp.nils[n], body, |sp.open|, |sp.g|, |sp.below| + 1, env.lim.depth),
          Closed(sp), ps', log + D.BodyEvents(sp.open[n], body), s.lists)
    decreases nodes, 2
  {
    hide Matches; hide Here; hide Go; hide D.NodePiece; hide D.NodeOk; hide D.NodeRoom; hide D.NodeEvents; hide D.EndPiece; hide Ran;
    var n := |sp.open| - 1;
    var body := D.Children(nodes);
    var content := D.NodesPiece(pen, lists, D.Key(owner, D.Tag), nodes);
    var key := D.Key(owner, if nodes == [] then D.Tag else D.Inside);
    var end := D.EndPiece(pen, content.lists, key);
    HereJoined(env, content.words, end.words, pos, i);
    var log' := log + D.BodyEvents(sp.open[n], body);
    if nodes != [] && sp.nils[n] {
      NilNodes(env, pen, sp, ps, lists, log, owner, nodes, pos, i);
      ps' := ps;
      NotRan(env, sp, ps, log, pos, i, D.BodyPiece(pen, lists, owner, body).words, Closed(sp), ps', log',
             D.BodyPiece(pen, lists, owner, body).lists);
    } else {
      var ps1 := ps;
      var sp1 := if nodes == [] then sp else Retop(sp, ElementContent);
      var log1 := log + D.NodesEvents(nodes);
      var room := AllRoom(nodes, |sp.open|, |sp.g|, |sp.below| + 1, env.lim.depth);
      if nodes == [] {
        assert log1 == log;
        NoWords(env, sp, ps, log, lists, pos, i);
      } else {
        CalmAgain(sp);
        ps1 := NodesRun(env, pen, sp, ps, lists, log, D.Key(owner, D.Tag), nodes, pos, i);
      }
      ps' := ps1;
      if room {
        RanOn(env, sp, ps, log, pos, i, content.words, sp1, ps1, log1, content.lists);
        ps' := EndsRun(env, pen, sp1, ps1, content.lists, log1, key, EndOf(content.words, pos), i + |content.words|);
        assert Closed(sp1) == Closed(sp);
        assert log1 + [Ended(sp.open[n])] == log';
      }
      Follows(env, sp, ps, log, pos, i, content.words, room, sp1, ps1, log1, content.lists, end.words, true,
              Closed(sp), ps', log', end.lists);
    }
  }

  lemma CalmAgain(sp: Spot)
    requires sp.nils != [] && Calm(sp.nils[..|sp.nils| - 1]) && !sp.nils[|sp.nils| - 1]
    ensures Calm(sp.nils) && Quiet(sp)
  {
    forall k | 0 <= k < |sp.nils|
      ensures !sp.nils[k]
    {
      if k < |sp.nils| - 1 { assert !sp.nils[..|sp.nils| - 1][k]; }
    }
  }

  lemma NotRan(env: Env, sp: Spot, ps: seq<Learned>, log: seq<SinkEvent>, pos: nat, i: nat, words: seq<D.Word>,
               sp': Spot, ps': seq<Learned>, log': seq<SinkEvent>, lists': D.Lists)
    requires Go(env, Sess(sp, ps, log), pos, i) == None
    ensures Ran(env, sp, ps, log, pos, i, words, false, sp', ps', log', lists')
  {
  }

  lemma NilNodes(env: Env, pen: D.Pen, sp: Spot, ps: seq<Learned>, lists: D.Lists, log: seq<SinkEvent>, owner: nat,
                 nodes: seq<D.Node>, pos: nat, i: nat)
    requires EnvOk(env, pen) && StandsAt(sp, D.Key(owner, D.Tag)) && sp.open != [] && sp.nils[|sp.nils| - 1]
    requires Matches(ps, lists) && Paced(env, ps, pos, i) && nodes != [] && D.NodeOk(pen, nodes[0], false)
    requires Here(env, D.NodesPiece(pen, lists, D.Key(owner, D.Tag), nodes).words, pos, i)
    ensures Go(env, Sess(sp, ps, log), pos, i) == None
  {
    hide Matches; hide Here; hide Go; hide D.NodePiece; hide D.NodeOk;
    var first := D.NodePiece(pen, lists, D.Key(owner, D.Tag), nodes[0]);
    var rest := D.NodesPiece(pen, first.lists, D.Key(owner, D.Inside), nodes[1..]);
    HereJoined(env, first.words, rest.words, pos, i);
    NilChild(env, pen, sp, ps, lists, log, owner, nodes[0], pos, i);
  }

  lemma EndsRun(env: Env, pen: D.Pen, sp: Spot, ps: seq<Learned>, lists: D.Lists, log: seq<SinkEvent>, key: D.Key,
                pos: nat, i: nat) returns (ps': seq<Learned>)
    requires EnvOk(env, pen) && StandsAt(sp, key) && sp.open != [] && Matches(ps, lists) && Paced(env, ps, pos, i)
    requires Inner2(key.place) && Here(env, D.EndPiece(pen, lists, key).words, pos, i)
    ensures var s := D.EndPiece(pen, lists, key);
      Ran(env, sp, ps, log, pos, i, s.words, true, Closed(sp), ps', log + [Ended(sp.open[|sp.open| - 1])], s.lists)
  {
    hide Matches; hide Here; hide Go; hide D.EndPiece;
    ps' := EndRuns(env, pen, sp, ps, lists, log, key, pos, i);
  }

  predicate AllRoom(nodes: seq<D.Node>, open: nat, height: nat, fragments: nat, depth: nat) {
    forall node <- nodes :: D.NodeRoom(node, open, height, fragments, depth)
  }

  predicate AllOk(pen: D.Pen, nodes: seq<D.Node>, top: bool) {
    forall node <- nodes :: D.NodeOk(pen, node, top)
  }

  lemma Heads(pen: D.Pen, nodes: seq<D.Node>, top: bool, open: nat, height: nat, fragments: nat, depth: nat)
    requires nodes != []
    ensures AllRoom(nodes, open, height, fragments, depth) <==>
              D.NodeRoom(nodes[0], open, height, fragments, depth) && AllRoom(nodes[1..], open, height, fragments, depth)
    ensures AllOk(pen, nodes, top) ==> D.NodeOk(pen, nodes[0], top) && AllOk(pen, nodes[1..], top)
  {
    hide D.NodeRoom; hide D.NodeOk;
    assert nodes == [nodes[0]] + nodes[1..];
  }

  /** Nodes one behind the other: the first moves the grammar on from the start tag to the content. */
  lemma {:induction false} NodesRun(env: Env, pen: D.Pen, sp: Spot, ps: seq<Learned>, lists: D.Lists, log: seq<SinkEvent>,
                                    key: D.Key, nodes: seq<D.Node>, pos: nat, i: nat)
    returns (ps': seq<Learned>)
    requires EnvOk(env, pen) && StandsAt(sp, key) && Calm(sp.nils) && Starts(sp) && Matches(ps, lists) && Paced(env, ps, pos, i)
    requires if key.place == D.Top then key.owner == NO_NAME else sp.open != []
    requires AllOk(pen, nodes, key.place == D.Top)
    requires Here(env, D.NodesPiece(pen, lists, key, nodes).words, pos, i)
    ensures var s := D.NodesPiece(pen, lists, key, nodes);
      Ran(env, sp, ps, log, pos, i, s.words,
          AllRoom(nodes, |sp.open|, |sp.g|, |sp.below| + 1, env.lim.depth),
          if nodes == [] then sp else Retop(sp, KindOf(Next(key.place))), ps', log + D.NodesEvents(nodes), s.lists)
    decreases nodes, 0
  {
    hide Matches; hide Here; hide Go; hide D.NodePiece; hide D.NodeOk; hide D.NodeRoom; hide D.NodeEvents; hide Ran; hide Calm;
    hide AllRoom; hide AllOk; hide Retop; hide EndOf; hide Paced;
    ps' := ps;
    if nodes == [] {
      assert log + D.NodesEvents([]) == log;
      NoneRoom(|sp.open|, |sp.g|, |sp.below| + 1, env.lim.depth);
      NoWords(env, sp, ps, log, lists, pos, i);
    } else {
      var next := D.Key(key.owner, Next(key.place));
      var first := D.NodePiece(pen, lists, key, nodes[0]);
      var rest := D.NodesPiece(pen, first.lists, next, nodes[1..]);
      HereJoined(env, first.words, rest.words, pos, i);
      Heads(pen, nodes, key.place == D.Top, |sp.open|, |sp.g|, |sp.below| + 1, env.lim.depth);
      var ps1 := NodeRuns(env, pen, sp, ps, lists, log, key, nodes[0], pos, i);
      var sp1, log1 := Retop(sp, KindOf(Next(key.place))), log + D.NodeEvents(nodes[0]);
      var room := D.NodeRoom(nodes[0], |sp.open|, |sp.g|, |sp.below| + 1, env.lim.depth);
      var rooms := AllRoom(nodes[1..], |sp.open|, |sp.g|, |sp.below| + 1, env.lim.depth);
      RetopAgain(sp, next.place);
      ps' := ps1;
      if room {
        RanOn(env, sp, ps, log, pos, i, first.words, sp1, ps1, log1, first.lists);
        ps' := NodesRun(env, pen, sp1, ps1, first.lists, log1, next, nodes[1..], EndOf(first.words, pos), i + |first.words|);
      }
      assert log1 + D.NodesEvents(nodes[1..]) == log + D.NodesEvents(nodes);
      Follows(env, sp, ps, log, pos, i, first.words, room, sp1, ps1, log1, first.lists, rest.words, rooms,
              sp1, ps', log + D.NodesEvents(nodes), rest.lists);
    }
  }

  lemma NoneRoom(open: nat, height: nat, fragments: nat, depth: nat)
    ensures AllRoom([], open, height, fragments, depth)
  {
  }

  lemma RetopAgain(sp: Spot, place: D.Place)
    requires sp.g != []
    ensures var sp1 := Retop(sp, KindOf(place));
      |sp1.g| == |sp.g| && TopOf(sp1.g) == GrammarFrame(KindOf(place), TopOf(sp.g).owner) && Retop(sp1, KindOf(Next(place)))
        == Retop(sp, KindOf(Next(place)))
    ensures Retop(Retop(sp, KindOf(place)), KindOf(place)) == Retop(sp, KindOf(place))
    ensures var sp1 := Retop(sp, KindOf(place)); sp1.(g := sp.g) == sp
  {
  }

  lemma {:induction false} NodeRuns(env: Env, pen: D.Pen, sp: Spot, ps: seq<Learned>, lists: D.Lists, log: seq<SinkEvent>,
                                    key: D.Key, node: D.Node, pos: nat, i: nat)
    returns (ps': seq<Learned>)
    requires EnvOk(env, pen) && StandsAt(sp, key) && Calm(sp.nils) && Starts(sp) && Matches(ps, lists) && Paced(env, ps, pos, i)
    requires if key.place == D.Top then key.owner == NO_NAME else sp.open != []
    requires D.NodeOk(pen, node, key.place == D.Top) && Here(env, D.NodePiece(pen, lists, key, node).words, pos, i)
    ensures var s := D.NodePiece(pen, lists, key, node);
      Ran(env, sp, ps, log, pos, i, s.words, D.NodeRoom(node, |sp.open|, |sp.g|, |sp.below| + 1, env.lim.depth),
          Retop(sp, KindOf(Next(key.place))), ps', log + D.NodeEvents(node), s.lists)
    decreases node, 0
  {
    hide Matches; hide Here; hide Go; hide D.ElementPiece; hide D.Speak; hide D.NoteWord; hide EndOf; hide Paced;
    hide D.ElementRoom; hide D.ElementEvents;
    hide Retop;
    match node
    case Child(e) =>
      ps' := ElementRuns(env, pen, sp, ps, lists, log, key, e, pos, i);
    case Characters(text) =>
      ps' := CharsRuns(env, pen, sp, ps, lists, log, key, text, pos, i);
    case Aside(note) =>
      NoteRuns(env, pen, sp, ps, lists, log, key, note, pos, i);
      ps' := ps;
  }

  /** An element with its start and end. */
  lemma {:induction false} ElementRuns(env: Env, pen: D.Pen, sp: Spot, ps: seq<Learned>, lists: D.Lists, log: seq<SinkEvent>,
                                       key: D.Key, e: D.Element, pos: nat, i: nat)
    returns (ps': seq<Learned>)
    requires EnvOk(env, pen) && StandsAt(sp, key) && Calm(sp.nils) && Starts(sp) && Matches(ps, lists) && Paced(env, ps, pos, i)
    requires key.place == D.Top ==> key.owner == NO_NAME
    requires D.ElementOk(pen, e) && Here(env, D.ElementPiece(pen, lists, key, e).words, pos, i)
    ensures var s := D.ElementPiece(pen, lists, key, e);
      Ran(env, sp, ps, log, pos, i, s.words, D.ElementRoom(e, |sp.open|, |sp.g|, |sp.below| + 1, env.lim.depth),
          Retop(sp, KindOf(Next(key.place))), ps', log + D.ElementEvents(e), s.lists)
    decreases e, 0
  {
    hide Matches; hide Here; hide Go; hide D.StartPiece; hide D.InnerPiece; hide D.BodyRoom; hide D.InnerEvents; hide Ran; hide Calm;
    hide D.BodyOk; hide D.NilBy;
    var start := D.StartPiece(pen, lists, key, e);
    var inner := D.InnerPiece(pen, start.lists, e.qname, e.tag, e.body);
    HereJoined(env, start.words, inner.words, pos, i);
    var next := KindOf(Next(key.place));
    var sp1, log1 := Opened(sp, next, e), log + [Started(e.name)];
    var ps1, fits := StartsRun(env, pen, sp, ps, lists, log, key, e, pos, i);
    OpenedCalm(sp, next, e);
    ps' := ps1;
    if fits {
      RanOn(env, sp, ps, log, pos, i, start.words, sp1, ps1, log1, start.lists);
      ps' := InnerRuns(env, pen, sp1, ps1, start.lists, log1, e.qname, e.name, e.tag, e.body, EndOf(start.words, pos),
                       i + |start.words|);
    }
    assert log1 + D.InnerEvents(e.name, e.tag, e.body) == log + D.ElementEvents(e);
    Follows(env, sp, ps, log, pos, i, start.words, fits, sp1, ps1, log1, start.lists, inner.words,
            D.BodyRoom(D.NilBy(e.tag), e.body, |sp.open| + 1, |sp.g| + 1, |sp.below| + 1, env.lim.depth),
            Retop(sp, next), ps', log + D.ElementEvents(e), inner.lists);
  }

  lemma StartsRun(env: Env, pen: D.Pen, sp: Spot, ps: seq<Learned>, lists: D.Lists, log: seq<SinkEvent>, key: D.Key, e: D.Element,
                  pos: nat, i: nat) returns (ps': seq<Learned>, fits: bool)
    requires EnvOk(env, pen) && StandsAt(sp, key) && Calm(sp.nils) && Starts(sp) && Matches(ps, lists) && Paced(env, ps, pos, i)
    requires key.place == D.Top ==> key.owner == NO_NAME
    requires D.NameOk(pen, e.qname, e.spelling) && Here(env, D.StartPiece(pen, lists, key, e).words, pos, i)
    ensures fits == (|sp.open| < env.lim.depth && |sp.g| < env.lim.depth)
    ensures var s := D.StartPiece(pen, lists, key, e);
      Ran(env, sp, ps, log, pos, i, s.words, fits, Opened(sp, KindOf(Next(key.place)), e), ps', log + [Started(e.name)], s.lists)
  {
    hide Matches; hide Here; hide Go; hide Opened;
    assert |D.StartPiece(pen, lists, key, e).words| == 1;
    ps' := StartRuns(env, pen, sp, ps, lists, log, key, e, pos, i);
    fits := |sp.open| < env.lim.depth && |sp.g| < env.lim.depth;
  }

  lemma OpenedCalm(sp: Spot, next: GrammarKind, e: D.Element)
    requires sp.g != [] && Calm(sp.nils) && |sp.open| == |sp.nils| && Starts(sp)
    ensures var sp1 := Opened(sp, next, e);
      && InTag(sp1, e.qname) && |sp1.g| == |sp.g| + 1 && |sp1.open| == |sp.open| + 1 && sp1.below == sp.below
      && sp1.open[|sp1.open| - 1] == e.name && Closed(sp1) == Retop(sp, next)
  {
  }

  //
  // Elements as fragments of their own
  //

  lemma {:induction false} AloneRun(env: Env, pen: D.Pen, sp: Spot, ps: seq<Learned>, lists: D.Lists, log: seq<SinkEvent>,
                                    owner: nat, name: Name, body: D.Body, pos: nat, i: nat)
    returns (ps': seq<Learned>)
    requires EnvOk(env, pen) && StandsAt(sp, D.Key(owner, D.Tag)) && sp.open != [] && Starts(sp) && Calm(sp.nils[..|sp.nils| - 1])
    requires Matches(ps, lists) && Paced(env, ps, pos, i) && body.Alone? && D.BodyOk(pen, name, body)
    requires SameName(sp.open[|sp.open| - 1], name)
    requires Here(env, D.BodyPiece(pen, lists, owner, body).words, pos, i)
    ensures var s := D.BodyPiece(pen, lists, owner, body); var n := |sp.open| - 1;
      Ran(env, sp, ps, log, pos, i, s.words, D.BodyRoom(sp.nils[n], body, |sp.open|, |sp.g|, |sp.below| + 1, env.lim.depth),
          Closed(sp), ps', log + D.BodyEvents(sp.open[n], body), s.lists)
    decreases body, 0
  {
    hide Matches; hide Here; hide Go; hide D.AlonePiece; hide D.BodyOk; hide D.BodyRoom; hide D.BodyEvents; hide D.Code; hide D.Built;
    hide Calm;
    var n := |sp.open| - 1;
    var sc := D.Word(D.Code(pen, D.Built(pen, D.Tag, |D.Of(lists, D.Key(owner, D.Tag))|, SelfContained)), [], D.Nothing, pad := true);
    var inside := D.AlonePiece(pen, body.before, body.root, body.after);
    HereJoined(env, [sc], inside, pos, i);
    AloneOk(pen, name, body);
    ps' := ps;
    AloneRoom(body, sp.nils[n], |sp.open|, |sp.g|, |sp.below| + 1, env.lim.depth);
    if sp.nils[n] {
      NilAlone(env, pen, sp, ps, lists, log, owner, sc, pos, i);
    } else {
      CalmAgain(sp);
      AloneRuns(env, pen, sp, ps, lists, log, owner, sc, pos, i);
      if |sp.below| + 1 < env.lim.depth {
        InsideRuns(env, pen, sp, ps, log, body, EndOf([sc], pos), i + 1);
      }
    }
  }

  lemma AloneOk(pen: D.Pen, name: Name, body: D.Body)
    requires body.Alone? && D.BodyOk(pen, name, body)
    ensures pen.options.selfContained && SameName(body.root.name, name) && D.ElementOk(pen, body.root)
    ensures (forall n <- body.before :: D.NoteOk(pen, n)) && (forall n <- body.after :: D.NoteOk(pen, n))
  {
    forall n | n in body.before || n in body.after
      ensures D.NoteOk(pen, n)
    {
      assert n in body.before + body.after;
    }
  }

  lemma AloneRoom(body: D.Body, nil: bool, open: nat, height: nat, fragments: nat, depth: nat)
    requires body.Alone?
    ensures D.BodyRoom(nil, body, open, height, fragments, depth) <==>
              !nil && fragments < depth && InsideRoom(body, open, fragments, depth)
  {
  }

  /** The element once more has room in a fragment of its own. */
  predicate InsideRoom(body: D.Body, open: nat, fragments: nat, depth: nat)
    requires body.Alone?
  {
    open < depth && 1 < depth && D.BodyRoom(D.NilBy(body.root.tag), body.root.body, open, 2, fragments + 1, depth)
  }

  /** The fragment of its own, from its start to its end. */
  lemma {:induction false} InsideRuns(env: Env, pen: D.Pen, out: Spot, outer: seq<Learned>, log: seq<SinkEvent>, body: D.Body,
                                      pos: nat, i: nat)
    requires EnvOk(env, pen) && out.g != [] && |out.open| == |out.nils| > 0 && Calm(out.nils) && body.Alone?
    requires AlignedFor(env.mode, pos) && i <= pos && D.ElementOk(pen, body.root)
    requires SameName(body.root.name, out.open[|out.open| - 1])
    requires (forall n <- body.before :: D.NoteOk(pen, n)) && (forall n <- body.after :: D.NoteOk(pen, n))
    requires Here(env, D.AlonePiece(pen, body.before, body.root, body.after), pos, i)
    ensures var words := D.AlonePiece(pen, body.before, body.root, body.after); var end := EndOf(words, pos); var n := |out.open| - 1;
      if InsideRoom(body, |out.open|, |out.below| + 1, env.lim.depth) then
        && Go(env, Sess(Nested(out, outer), [], log), pos, i) ==
             Go(env, Sess(Closed(out), outer, log + D.BodyEvents(out.open[n], body)), end, i + |words|)
        && i + |words| <= end + 1 && AlignedFor(env.mode, end) && end + 1 >= pos + |words|
      else Go(env, Sess(Nested(out, outer), [], log), pos, i) == None
    decreases body, 0, 1
  {
    hide Matches; hide Here; hide Go; hide D.ElementPiece; hide D.NoteWords; hide D.Code; hide D.Built; hide D.InnerEvents; hide Ran;
    hide Calm; hide InsideRoom; hide EndOf; hide D.NoteOk; hide D.ElementOk;
    var top := D.Key(NO_NAME, D.Top);
    var n := |out.open| - 1;
    var cur := out.open[n];
    var inner := D.ElementPiece(pen, map[], top, body.root);
    var sd := D.Word([], [], D.Nothing);
    var ed := D.Word(D.Code(pen, D.Built(pen, D.Top, |D.Of(inner.lists, top)|, EndDocument)), [], D.Nothing, pad := true);
    var b, a := D.NoteWords(pen, map[], body.before), D.NoteWords(pen, inner.lists, body.after);
    HereJoined(env, [sd] + b + inner.words + a, [ed], pos, i);
    HereJoined(env, [sd] + b + inner.words, a, pos, i);
    HereJoined(env, [sd] + b, inner.words, pos, i);
    HereJoined(env, [sd], b, pos, i);
    var sp := Nested(out, outer).(g := [GrammarFrame(FragmentContent, NO_NAME)]);
    NothingSaid();
    LastCalm(out);
    OpenRuns(env, pen, Nested(out, outer), log, Fragment, sd, pos, i);
    var log1 := log + D.NoteEvents(body.before);
    NotesRun(env, pen, sp, [], map[], log, body.before, pos, i + 1);
    RanOn(env, sp, [], log, pos, i + 1, b, sp, [], log1, map[]);
    RanEnds(env, sp, [], log, pos, i + 1, b, true, sp, [], log1, map[]);
    var pos2, i2 := EndOf(b, pos), i + 1 + |b|;
    var ps := RootRun(env, pen, sp, log1, body.root, pos2, i2);
    var room := InsideRoom(body, |out.open|, |out.below| + 1, env.lim.depth);
    var sp2, log2 := RootClosed(sp), log1 + D.InnerEvents(cur, body.root.tag, body.root.body);
    InsideIs(body, |out.open|, |out.below| + 1, env.lim.depth);
    RanEnds(env, sp, [], log1, pos2, i2, inner.words, room, sp2, ps, log2, inner.lists);
    if room {
      RanOn(env, sp, [], log1, pos2, i2, inner.words, sp2, ps, log2, inner.lists);
      var pos3, i3 := EndOf(inner.words, pos2), i2 + |inner.words|;
      var log3 := log2 + D.NoteEvents(body.after);
      FrontCalm(out);
      NotesRun(env, pen, sp2, ps, inner.lists, log2, body.after, pos3, i3);
      RanOn(env, sp2, ps, log2, pos3, i3, a, sp2, ps, log3, inner.lists);
      RanEnds(env, sp2, ps, log2, pos3, i3, a, true, sp2, ps, log3, inner.lists);
      ShutRuns(env, pen, out, outer, sp2, ps, inner.lists, log3, ed, EndOf(a, pos3), i3 + |a|);
      assert log3 == log + D.BodyEvents(cur, body);
    }
  }

  lemma FrontCalm(sp: Spot)
    requires Calm(sp.nils) && sp.nils != []
    ensures var nils := sp.nils[..|sp.nils| - 1]; nils == [] || !nils[|nils| - 1]
  {
  }

  lemma RanEnds(env: Env, sp: Spot, ps: seq<Learned>, log: seq<SinkEvent>, pos: nat, i: nat, words: seq<D.Word>, room: bool,
                sp': Spot, ps': seq<Learned>, log': seq<SinkEvent>, lists': D.Lists)
    requires Ran(env, sp, ps, log, pos, i, words, room, sp', ps', log', lists')
    ensures if room then
              && Go(env, Sess(sp, ps, log), pos, i) == Go(env, Sess(sp', ps', log'), EndOf(words, pos), i + |words|)
              && EndOf(words, pos) >= pos + |words|
            else Go(env, Sess(sp, ps, log), pos, i) == None
  {
  }

  lemma InsideIs(body: D.Body, open: nat, fragments: nat, depth: nat)
    requires body.Alone?
    ensures InsideRoom(body, open, fragments, depth) <==>
              open < depth && 1 < depth && D.BodyRoom(D.NilBy(body.root.tag), body.root.body, open, 2, fragments + 1, depth)
  {
  }

  /** Behind the root of a fragment of its own. */
  function RootClosed(sp: Spot): Spot
    requires sp.open != [] && sp.nils != []
  {
    sp.(started := true, open := sp.open[..|sp.open| - 1], nils := sp.nils[..|sp.nils| - 1])
  }

  lemma {:induction false} RootRun(env: Env, pen: D.Pen, sp: Spot, log: seq<SinkEvent>, e: D.Element, pos: nat, i: nat)
    returns (ps': seq<Learned>)
    requires EnvOk(env, pen) && sp.g == [GrammarFrame(FragmentContent, NO_NAME)] && |sp.open| == |sp.nils| == sp.depth > 0
    requires sp.below != [] && !sp.started && Calm(sp.nils) && sp.root == sp.open[|sp.open| - 1] && SameName(e.name, sp.root)
    requires Paced(env, [], pos, i) && D.ElementOk(pen, e) && Here(env, D.ElementPiece(pen, map[], D.Key(NO_NAME, D.Top), e).words, pos, i)
    ensures var s := D.ElementPiece(pen, map[], D.Key(NO_NAME, D.Top), e);
      Ran(env, sp, [], log, pos, i, s.words,
          |sp.open| < env.lim.depth && 1 < env.lim.depth
            && D.BodyRoom(D.NilBy(e.tag), e.body, |sp.open|, 2, |sp.below| + 1, env.lim.depth),
          RootClosed(sp), ps', log + D.InnerEvents(sp.root, e.tag, e.body), s.lists)
    decreases e, 0
  {
    hide Matches; hide Here; hide Go; hide D.StartPiece; hide D.InnerPiece; hide D.BodyRoom; hide D.InnerEvents; hide Ran; hide Calm;
    hide D.BodyOk; hide D.NilBy;
    var key := D.Key(NO_NAME, D.Top);
    var start := D.StartPiece(pen, map[], key, e);
    var inner := D.InnerPiece(pen, start.lists, e.qname, e.tag, e.body);
    HereJoined(env, start.words, inner.words, pos, i);
    NothingSaid();
    LastCalm(sp);
    var ps1, fits := RootsRun(env, pen, sp, log, e, pos, i);
    var sp1 := Pushed(sp, FragmentContent, e.qname).(started := true);
    ps' := ps1;
    if fits {
      RanOn(env, sp, [], log, pos, i, start.words, sp1, ps1, log, start.lists);
      ps' := InnerRuns(env, pen, sp1, ps1, start.lists, log, e.qname, e.name, e.tag, e.body, EndOf(start.words, pos), i + |start.words|);
      assert Closed(sp1) == RootClosed(sp);
    }
    Follows(env, sp, [], log, pos, i, start.words, fits, sp1, ps1, log, start.lists, inner.words,
            D.BodyRoom(D.NilBy(e.tag), e.body, |sp.open|, 2, |sp.below| + 1, env.lim.depth),
            RootClosed(sp), ps', log + D.InnerEvents(sp.root, e.tag, e.body), inner.lists);
  }

  lemma RootsRun(env: Env, pen: D.Pen, sp: Spot, log: seq<SinkEvent>, e: D.Element, pos: nat, i: nat)
    returns (ps': seq<Learned>, fits: bool)
    requires EnvOk(env, pen) && sp.g == [GrammarFrame(FragmentContent, NO_NAME)] && |sp.open| == |sp.nils| && Quiet(sp)
    requires sp.below != [] && !sp.started && SameName(e.name, sp.root) && Matches([], map[])
    requires Paced(env, [], pos, i) && D.NameOk(pen, e.qname, e.spelling)
    requires Here(env, D.StartPiece(pen, map[], D.Key(NO_NAME, D.Top), e).words, pos, i)
    ensures fits == (|sp.open| < env.lim.depth && 1 < env.lim.depth)
    ensures var s := D.StartPiece(pen, map[], D.Key(NO_NAME, D.Top), e);
      Ran(env, sp, [], log, pos, i, s.words, fits, Pushed(sp, FragmentContent, e.qname).(started := true), ps', log, s.lists)
  {
    hide Matches; hide Here; hide Go; hide Pushed;
    assert |D.StartPiece(pen, map[], D.Key(NO_NAME, D.Top), e).words| == 1;
    ps' := RootRuns(env, pen, sp, [], map[], log, e, pos, i);
    fits := |sp.open| < env.lim.depth && 1 < env.lim.depth;
  }
}
