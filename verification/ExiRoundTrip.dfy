// The event loop on what the encoder writes: it tells the sink the events of the document, exactly when the
// elements are not nested deeper than the encoding has bytes.
module ExiRoundTrip {
  import opened Common
  import opened ExiBits
  import opened ExiGrammars
  import opened ExiEvents
  import opened ExiSpoken
  import opened ExiTurns
  import opened ExiDocumentBack
  import D = ExiDocument

  lemma {:induction false} OutersRun(env: Env, pen: D.Pen, sp: Spot, ps: seq<Learned>, lists: D.Lists, log: seq<SinkEvent>,
                                     notes: seq<D.Note>, behind: bool, pos: nat, i: nat)
    requires EnvOk(env, pen) && sp.g == [GrammarFrame(if behind then DocumentEnd else DocContent, NO_NAME)] && Quiet(sp)
    requires Matches(ps, lists) && Paced(env, ps, pos, i) && forall n <- notes :: OuterOk(pen, n, behind)
    requires Here(env, D.OuterNotes(pen, notes, behind), pos, i)
    ensures Ran(env, sp, ps, log, pos, i, D.OuterNotes(pen, notes, behind), true, sp, ps, log + D.NoteEvents(notes), lists)
    decreases |notes|
  {
    hide Matches; hide Here; hide Go; hide OuterOk; hide D.Prolog; hide D.Epilog; hide D.Code;
    if notes == [] {
      NoWords(env, sp, ps, log, lists, pos, i);
      assert log + D.NoteEvents([]) == log;
    } else {
      var w := D.OuterNotes(pen, notes, behind)[0];
      var rest := D.OuterNotes(pen, notes[1..], behind);
      HereJoined(env, [w], rest, pos, i);
      OuterCodeIs(pen, notes[0].kind, behind);
      OuterRuns(env, pen, sp, ps, log, notes[0], behind, w, pos, i);
      var log1 := log + [Other(notes[0].kind)];
      OutersRun(env, pen, sp, ps, lists, log1, notes[1..], behind, EndOf([w], pos), i + 1);
      assert log1 + D.NoteEvents(notes[1..]) == log + D.NoteEvents(notes);
      Follows(env, sp, ps, log, pos, i, [w], true, sp, ps, log1, lists, rest, true, sp, ps, log + D.NoteEvents(notes), lists);
    }
  }

  lemma OuterCodeIs(pen: D.Pen, kind: EventKind, behind: bool)
    ensures OuterCode(pen, kind, behind) == D.Code(pen, if behind then D.Epilog(pen, kind) else D.Prolog(pen, kind))
  {
  }

  /** The outermost fragment or document. */
  function Outermost(kind: GrammarKind): Spot {
    Spot([], Name([], [], []), 0, false, [GrammarFrame(kind, NO_NAME)], [], [])
  }

  lemma OpeningIs(fragment: bool)
    ensures Opening(fragment) == Sess(Outermost(if fragment then Fragment else Document), [], [])
  {
  }

  ghost predicate DecodesTo(r: Option<Session>, room: bool, log: seq<SinkEvent>) {
    if room then r.Some? && r.value.finished && r.value.log == log else r == None
  }

  lemma FragmentDecodes(env: Env, pen: D.Pen, nodes: seq<D.Node>, pos: nat)
    requires EnvOk(env, pen) && AlignedFor(env.mode, pos) && AllOk(pen, nodes, true)
    requires Here(env, D.DocWords(pen, D.Fragment(nodes)), pos, 0)
    ensures DecodesTo(Go(env, Sess(Outermost(Fragment), [], []), pos, 0), AllRoom(nodes, 0, 1, 1, env.lim.depth), D.NodesEvents(nodes))
  {
    hide Matches; hide Here; hide Go; hide D.NodesPiece; hide D.NodesEvents; hide AllRoom; hide AllOk; hide D.Code; hide D.Built; hide Ran;
    var top := D.Key(NO_NAME, D.Top);
    var inner := D.NodesPiece(pen, map[], top, nodes);
    var sd := D.Word([], [], D.Nothing);
    var ed := D.Word(D.Code(pen, D.Built(pen, D.Top, |D.Of(inner.lists, top)|, EndDocument)), [], D.Nothing);
    HereJoined(env, [sd] + inner.words, [ed], pos, 0);
    HereJoined(env, [sd], inner.words, pos, 0);
    OpenRuns(env, pen, Outermost(Fragment), [], Fragment, sd, pos, 0);
    var sp := Outermost(FragmentContent);
    assert Outermost(Fragment).(g := [GrammarFrame(FragmentContent, NO_NAME)]) == sp;
    NothingSaid();
    var ps := NodesRun(env, pen, sp, [], map[], [], top, nodes, pos, 1);
    RetopSame(sp, FragmentContent);
    assert [] + D.NodesEvents(nodes) == D.NodesEvents(nodes);
    var room := AllRoom(nodes, 0, 1, 1, env.lim.depth);
    RanEnds(env, sp, [], [], pos, 1, inner.words, room, sp, ps, D.NodesEvents(nodes), inner.lists);
    if room {
      RanOn(env, sp, [], [], pos, 1, inner.words, sp, ps, D.NodesEvents(nodes), inner.lists);
      FragmentEndRuns(env, pen, sp, ps, inner.lists, D.NodesEvents(nodes), ed, EndOf(inner.words, pos), 1 + |inner.words|);
    }
  }

  function RootWord(pen: D.Pen, root: D.Element): D.Word {
    D.Word(D.Code(pen, D.Prolog(pen, StartElement)), root.spelling, D.ElementName(root.qname, root.name, true))
  }

  /** The words up to the name of the document element. */
  function Front(pen: D.Pen, before: seq<D.Note>, root: D.Element): seq<D.Word> {
    [D.Word([], [], D.Nothing)] + D.OuterNotes(pen, before, false) + [RootWord(pen, root)]
  }

  function EndWord(pen: D.Pen): D.Word {
    D.Word(D.Code(pen, D.Epilog(pen, EndDocument)), [], D.Nothing)
  }

  lemma DocSplit(env: Env, pen: D.Pen, before: seq<D.Note>, root: D.Element, after: seq<D.Note>, pos: nat)
    requires Here(env, D.DocWords(pen, D.Document(before, root, after)), pos, 0)
    ensures var inner := D.InnerPiece(pen, map[], root.qname, root.tag, root.body).words;
      var front, b := Front(pen, before, root), D.OuterNotes(pen, after, true);
      var pos1 := EndOf(front, pos);
      var pos2 := EndOf(inner, pos1);
      && Here(env, front, pos, 0) && Here(env, inner, pos1, |front|) && Here(env, b, pos2, |front| + |inner|)
      && Here(env, [EndWord(pen)], EndOf(b, pos2), |front| + |inner| + |b|)
  {
    hide Here; hide EndOf; hide D.InnerPiece; hide D.OuterNotes; hide D.Code; hide D.Prolog; hide D.Epilog;
    var inner := D.InnerPiece(pen, map[], root.qname, root.tag, root.body).words;
    var front, b := Front(pen, before, root), D.OuterNotes(pen, after, true);
    assert D.DocWords(pen, D.Document(before, root, after)) == front + inner + b + [EndWord(pen)];
    HereJoined(env, front + inner + b, [EndWord(pen)], pos, 0);
    HereJoined(env, front + inner, b, pos, 0);
    HereJoined(env, front, inner, pos, 0);
  }

  /** Up to the name of the document element. */
  lemma FrontRuns(env: Env, pen: D.Pen, before: seq<D.Note>, root: D.Element, pos: nat)
    requires EnvOk(env, pen) && AlignedFor(env.mode, pos) && D.NameOk(pen, root.qname, root.spelling)
    requires (forall n <- before :: OuterOk(pen, n, false)) && Here(env, Front(pen, before, root), pos, 0)
    ensures var front := Front(pen, before, root); var end := EndOf(front, pos);
      && Paced(env, [], end, |front|) && |front| <= end
      && Go(env, Sess(Outermost(Document), [], []), pos, 0) ==
           if env.lim.depth <= 1 then None
           else Go(env, Sess(Opened(Outermost(DocContent), DocumentEnd, root), [], D.NoteEvents(before) + [Started(root.name)]), end,
                   |front|)
  {
    hide Matches; hide Here; hide Go; hide D.Code; hide D.Prolog; hide Ran; hide D.OuterNotes; hide OuterOk; hide EndOf; hide Opened;
    hide Retop; hide Sess;
    var sd, rw := D.Word([], [], D.Nothing), RootWord(pen, root);
    var a := D.OuterNotes(pen, before, false);
    HereJoined(env, [sd] + a, [rw], pos, 0);
    HereJoined(env, [sd], a, pos, 0);
    OpenRuns(env, pen, Outermost(Document), [], Document, sd, pos, 0);
    var sp := Outermost(DocContent);
    assert Outermost(Document).(g := [GrammarFrame(DocContent, NO_NAME)]) == sp;
    NothingSaid();
    var log1: seq<SinkEvent> := D.NoteEvents(before);
    OutersRun(env, pen, sp, [], map[], [], before, false, pos, 1);
    assert [] + log1 == log1;
    RanOn(env, sp, [], [], pos, 1, a, sp, [], log1, map[]);
    RanEnds(env, sp, [], [], pos, 1, a, true, sp, [], log1, map[]);
    DocRootRuns(env, pen, sp, log1, root, rw, EndOf(a, pos), 1 + |a|);
  }

  lemma DocumentDecodes(env: Env, pen: D.Pen, before: seq<D.Note>, root: D.Element, after: seq<D.Note>, pos: nat)
    requires EnvOk(env, pen) && AlignedFor(env.mode, pos) && D.ElementOk(pen, root)
    requires (forall n <- before :: OuterOk(pen, n, false)) && (forall n <- after :: OuterOk(pen, n, true))
    requires Here(env, D.DocWords(pen, D.Document(before, root, after)), pos, 0)
    ensures DecodesTo(Go(env, Sess(Outermost(Document), [], []), pos, 0), D.ElementRoom(root, 0, 1, 1, env.lim.depth),
                    D.DocEvents(D.Document(before, root, after)))
  {
    hide Here; hide Go; hide D.InnerPiece; hide D.InnerEvents; hide D.BodyRoom; hide D.BodyOk; hide D.Code; hide D.Prolog; hide Front;
    hide D.Epilog; hide Sess; hide D.OuterNotes; hide OuterOk; hide D.NilBy; hide EndOf; hide Opened; hide D.DocWords; hide DecodesTo;
    DocSplit(env, pen, before, root, after, pos);
    FrontRuns(env, pen, before, root, pos);
    var front, b := Front(pen, before, root), D.OuterNotes(pen, after, true);
    var inner := D.InnerPiece(pen, map[], root.qname, root.tag, root.body);
    var log1 := D.NoteEvents(before) + [Started(root.name)];
    if env.lim.depth > 1 {
      BehindRoot(env, pen, root, after, log1, inner, b, EndWord(pen), EndOf(front, pos), |front|);
      assert log1 + D.InnerEvents(root.name, root.tag, root.body) + D.NoteEvents(after) == D.DocEvents(D.Document(before, root, after));
    } else {
      Refused(D.DocEvents(D.Document(before, root, after)));
    }
  }

  lemma Refused(log: seq<SinkEvent>)
    ensures DecodesTo(None, false, log)
  {
  }

  /** The document element behind its name, what follows it, and the end. */
  lemma BehindRoot(env: Env, pen: D.Pen, root: D.Element, after: seq<D.Note>, log: seq<SinkEvent>, inner: D.Piece, b: seq<D.Word>,
                   ed: D.Word, pos: nat, i: nat)
    requires EnvOk(env, pen) && Paced(env, [], pos, i) && i <= pos && D.ElementOk(pen, root)
    requires forall n <- after :: OuterOk(pen, n, true)
    requires inner == D.InnerPiece(pen, map[], root.qname, root.tag, root.body) && b == D.OuterNotes(pen, after, true)
    requires ed == D.Word(D.Code(pen, D.Epilog(pen, EndDocument)), [], D.Nothing)
    requires Here(env, inner.words, pos, i) && Here(env, b, EndOf(inner.words, pos), i + |inner.words|)
    requires Here(env, [ed], EndOf(b, EndOf(inner.words, pos)), i + |inner.words| + |b|)
    ensures DecodesTo(Go(env, Sess(Opened(Outermost(DocContent), DocumentEnd, root), [], log), pos, i),
                    D.BodyRoom(D.NilBy(root.tag), root.body, 1, 2, 1, env.lim.depth),
                    log + D.InnerEvents(root.name, root.tag, root.body) + D.NoteEvents(after))
  {
    hide Matches; hide Here; hide Go; hide D.InnerPiece; hide D.InnerEvents; hide D.BodyRoom; hide D.BodyOk; hide D.Code; hide D.Epilog;
    hide Ran; hide D.OuterNotes; hide OuterOk; hide D.NilBy;
    var sp := Outermost(DocContent);
    OpenedCalm(sp, DocumentEnd, root);
    NothingSaid();
    var sp1 := Opened(sp, DocumentEnd, root);
    var ps := InnerRuns(env, pen, sp1, [], map[], log, root.qname, root.name, root.tag, root.body, pos, i);
    var room := D.BodyRoom(D.NilBy(root.tag), root.body, 1, 2, 1, env.lim.depth);
    var sp2, log2 := Outermost(DocumentEnd), log + D.InnerEvents(root.name, root.tag, root.body);
    assert Retop(sp, DocumentEnd) == sp2;
    RanEnds(env, sp1, [], log, pos, i, inner.words, room, sp2, ps, log2, inner.lists);
    if room {
      RanOn(env, sp1, [], log, pos, i, inner.words, sp2, ps, log2, inner.lists);
      var pos2, i2 := EndOf(inner.words, pos), i + |inner.words|;
      OutersRun(env, pen, sp2, ps, inner.lists, log2, after, true, pos2, i2);
      var log3 := log2 + D.NoteEvents(after);
      RanOn(env, sp2, ps, log2, pos2, i2, b, sp2, ps, log3, inner.lists);
      RanEnds(env, sp2, ps, log2, pos2, i2, b, true, sp2, ps, log3, inner.lists);
      DocEndRuns(env, pen, sp2, ps, log3, ed, EndOf(b, pos2), i2 + |b|);
    }
  }

  /**
   * Whatever stands in the data from `pos` on as the encoder's words for a document or fragment is decoded if
   * and only if the decoder's stacks, which are as high as the input has bytes and one more, have room for it;
   * the sink is then told the events of the tree.
   */
  lemma WordsDecode(pen: D.Pen, doc: D.Doc, data: seq<byte>, contents: nat -> Content, pos: nat)
    requires D.DocOk(pen, doc) && 8 * |data| < LONGEST && AlignedFor(pen.mode, pos)
    requires Stand(data, pos, D.Spell(D.DocWords(pen, doc), pos)) && D.Delivered(contents, D.DocWords(pen, doc), pos, 0)
    ensures var r := RunBy(Opening(doc.Fragment?), Limits(pen.options, |data| + 1, |data| * 8 + 1), data, pen.mode, pos, contents, 0,
                           |data| * 8 + 1);
      && (r.Some? <==> D.DocRoom(doc, |data| + 1))
      && (r.Some? ==> r.value.finished && r.value.log == D.DocEvents(doc))
  {
    hide D.ElementRoom; hide D.NodeRoom; hide D.ElementOk; hide D.NodeOk; hide D.DocWords; hide D.DocEvents; hide D.Spell; hide D.Delivered;
    hide Stand; hide D.NoteOk; hide RunBy; hide Opening; hide Outermost; hide AllRoom; hide AllOk; hide OuterOk; hide D.NodesEvents;
    hide D.DocOk; hide D.DocRoom;
    DocParts(pen, doc, |data| + 1);
    var env := Env(Limits(pen.options, |data| + 1, |data| * 8 + 1), data, pen.mode, contents);
    OpeningIs(doc.Fragment?);
    match doc
    case Document(before, root, after) => DocumentDecodes(env, pen, before, root, after, pos);
    case Fragment(nodes) =>
      FragmentDecodes(env, pen, nodes, pos);
      EventsIs(nodes);
  }

  lemma DocParts(pen: D.Pen, doc: D.Doc, depth: nat)
    requires D.DocOk(pen, doc)
    ensures doc.Document? ==>
              && D.ElementOk(pen, doc.root) && (forall n <- doc.before :: OuterOk(pen, n, false))
              && (forall n <- doc.after :: OuterOk(pen, n, true))
              && D.DocRoom(doc, depth) == D.ElementRoom(doc.root, 0, 1, 1, depth)
    ensures doc.Fragment? ==> AllOk(pen, doc.nodes, true) && D.DocRoom(doc, depth) == AllRoom(doc.nodes, 0, 1, 1, depth)
  {
    hide D.ElementOk; hide D.NodeOk; hide D.ElementRoom; hide D.NodeRoom; hide D.NoteOk;
  }

  lemma EventsIs(nodes: seq<D.Node>)
    ensures D.DocEvents(D.Fragment(nodes)) == D.NodesEvents(nodes)
  {
  }
}
