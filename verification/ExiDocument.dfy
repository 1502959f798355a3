// Writing whole documents and fragments as EXI events without a schema (Efficient XML Interchange 1.0,
// sections 6.2 and 8.4): an encoder that walks the tree of elements and keeps, for every owner and place, the
// list of what it has said there, newest first. The bits of names and values are given.
module ExiDocument {
  import opened Common
  import opened ExiBits
  import G = ExiGrammars
  import E = ExiEvents

  type Bits = seq<bool>
  type Name = E.Name
  type Text = E.Text

  const NO_NAME: nat := 0xffff_ffff

  //
  // Documents
  //

  /** Attributes and namespace declarations; an xsi:nil attribute says whether its element is nil. */
  datatype Mark =
    | Attribute(name: Name, qname: nat, spelling: Bits, value: Bits, nil: Option<bool>)
    | Declaration(spelling: Bits, local: bool, prefix: Text)

  /** Comments, processing instructions, entity references and document types. */
  datatype Note = Note(kind: G.EventKind, text: Bits)

  datatype Element = Element(name: Name, qname: nat, spelling: Bits, tag: seq<Mark>, body: Body)

  /** Child nodes, the value of a simple type selected by an attribute, or the element once more as a fragment of its own. */
  datatype Body =
    | Children(nodes: seq<Node>)
    | Typed(selection: Mark, text: Bits)
    | Alone(before: seq<Note>, root: Element, after: seq<Note>)

  datatype Node = Child(element: Element) | Characters(text: Bits) | Aside(note: Note)

  datatype Doc = Document(before: seq<Note>, root: Element, after: seq<Note>) | Fragment(nodes: seq<Node>)

  //
  // Event codes
  //

  datatype Pen = Pen(mode: InputMode, options: G.Options)

  /** One part of an event code: an alternative out of so many. */
  datatype Part = Part(value: nat, of: nat)

  function Code(pen: Pen, parts: seq<Part>): Bits {
    if parts == [] then [] else ChoiceWritten(pen.mode, parts[0].value, parts[0].of) + Code(pen, parts[1..])
  }

  /** In a start tag, in the content behind it, or between the elements of a fragment. */
  datatype Place = Tag | Inside | Top
  datatype Key = Key(owner: nat, place: Place)
  datatype Said = Start(qname: nat) | Attr(qname: nat) | Chars | End

  /** What has been said at every place, newest first. */
  type Lists = map<Key, seq<Said>>

  function Of(lists: Lists, key: Key): seq<Said> {
    if key in lists then lists[key] else []
  }

  function Find(list: seq<Said>, x: Said): (k: nat)
    ensures k <= |list| && (k < |list| ==> list[k] == x) && (k == |list| ==> x !in list)
  {
    if list == [] || list[0] == x then 0 else 1 + Find(list[1..], x)
  }

  function One(b: bool): nat {
    if b then 1 else 0
  }

  /** Comments and processing instructions have codes of three parts. */
  function Thirds(o: G.Options): nat {
    One(o.preserveComments) + One(o.preservePis)
  }

  /** How many first parts there are where n events have been said. */
  function Firsts(pen: Pen, place: Place, n: nat): nat {
    match place
    case Tag => n + 1
    case Inside => n + 2
    case Top => n + 2 + One(Thirds(pen.options) > 0)
  }

  /** The second part of an event inside an element. */
  function Second(pen: Pen, place: Place, kind: G.EventKind): Part {
    var o := pen.options;
    var front := if place == Tag then 2 + One(o.preservePrefixes) + One(o.selfContained) else 0;
    var value := match kind
      case EndElement => 0
      case Attribute => 1
      case NamespaceDeclaration => 2
      case SelfContained => 2 + One(o.preservePrefixes)
      case StartElement => front
      case Characters => front + 1
      case EntityReference => front + 2
      case _ => front + 2 + One(o.preserveDtd);
    Part(value, front + 2 + One(o.preserveDtd) + One(Thirds(o) > 0))
  }

  /** The third part: comments come before processing instructions. */
  function Third(pen: Pen, kind: G.EventKind): Part {
    Part(if kind == G.Comment then 0 else One(pen.options.preserveComments), Thirds(pen.options))
  }

  predicate HasThird(kind: G.EventKind) {
    kind == G.Comment || kind == G.ProcessingInstruction
  }

  /** The code of an event that is said for the first time, or that is never remembered. */
  function Built(pen: Pen, place: Place, n: nat, kind: G.EventKind): seq<Part> {
    var firsts := Firsts(pen, place, n);
    match place
    case Tag => [Part(n, firsts), Second(pen, place, kind)] + if HasThird(kind) then [Third(pen, kind)] else []
    case Inside =>
      if kind == G.EndElement then [Part(n, firsts)]
      else [Part(n + 1, firsts), Second(pen, place, kind)] + if HasThird(kind) then [Third(pen, kind)] else []
    case Top =>
      if kind == G.StartElement then [Part(n, firsts)]
      else if kind == G.EndDocument then [Part(n + 1, firsts)]
      else [Part(n + 2, firsts), Third(pen, kind)]
  }

  /** In front of the document element. */
  function Prolog(pen: Pen, kind: G.EventKind): seq<Part> {
    var o := pen.options;
    var seconds := One(o.preserveDtd) + One(Thirds(o) > 0);
    if kind == G.StartElement then if seconds == 0 then [] else [Part(0, 2)]
    else if kind == G.Dtd then [Part(1, 2), Part(0, seconds)]
    else [Part(1, 2), Part(One(o.preserveDtd), seconds), Third(pen, kind)]
  }

  /** Behind the document element. */
  function Epilog(pen: Pen, kind: G.EventKind): seq<Part> {
    if kind == G.EndDocument then if Thirds(pen.options) == 0 then [] else [Part(0, 2)]
    else [Part(1, 2), Third(pen, kind)]
  }

  //
  // The encoder
  //

  /** What is to be understood behind an event code; a name is spelled out or known. */
  datatype Sense =
    | Nothing
    | ElementName(qname: nat, name: Name, spelled: bool)
    | AttributeName(qname: nat, name: Name, spelled: bool, nil: Option<bool>, typed: bool)
    | Prefix(local: bool, prefix: Text)

  /** An event code, the bits behind it, and whether the next event starts with a byte. */
  datatype Word = Word(code: Bits, rest: Bits, sense: Sense, pad: bool := false)
  datatype Piece = Piece(words: seq<Word>, lists: Lists)

  datatype Spoken = Spoken(code: Bits, first: bool, lists: Lists)

  /** Say x: by its place in the list, or by its built-in code when it then joins the list at the front. */
  function Speak(pen: Pen, lists: Lists, key: Key, x: Said, kind: G.EventKind): Spoken {
    var list := Of(lists, key);
    var k := Find(list, x);
    if k < |list| then Spoken(Code(pen, [Part(k, Firsts(pen, key.place, |list|))]), false, lists)
    else Spoken(Code(pen, Built(pen, key.place, |list|, kind)), true, lists[key := [x] + list])
  }

  function StartPiece(pen: Pen, lists: Lists, key: Key, e: Element): Piece {
    var s := Speak(pen, lists, key, Start(e.qname), G.StartElement);
    Piece([Word(s.code, if s.first then e.spelling else [], ElementName(e.qname, e.name, s.first))], s.lists)
  }

  function MarkPiece(pen: Pen, lists: Lists, owner: nat, m: Mark, typed: bool): Piece {
    var key := Key(owner, Tag);
    match m
    case Attribute(name, qname, spelling, value, nil) =>
      var s := Speak(pen, lists, key, Attr(qname), G.Attribute);
      Piece([Word(s.code, (if s.first then spelling else []) + value, AttributeName(qname, name, s.first, nil, typed))], s.lists)
    case Declaration(spelling, local, prefix) =>
      Piece([Word(Code(pen, Built(pen, Tag, |Of(lists, key)|, G.NamespaceDeclaration)), spelling, Prefix(local, prefix))], lists)
  }

  function MarksPiece(pen: Pen, lists: Lists, owner: nat, marks: seq<Mark>): Piece
    decreases |marks|
  {
    if marks == [] then Piece([], lists)
    else
      var first := MarkPiece(pen, lists, owner, marks[0], false);
      var rest := MarksPiece(pen, first.lists, owner, marks[1..]);
      Piece(first.words + rest.words, rest.lists)
  }

  function NoteWord(pen: Pen, lists: Lists, key: Key, note: Note): Word {
    Word(Code(pen, Built(pen, key.place, |Of(lists, key)|, note.kind)), note.text, Nothing)
  }

  function NoteWords(pen: Pen, lists: Lists, notes: seq<Note>): seq<Word> {
    if notes == [] then [] else [NoteWord(pen, lists, Key(NO_NAME, Top), notes[0])] + NoteWords(pen, lists, notes[1..])
  }

  function CharsPiece(pen: Pen, lists: Lists, key: Key, text: Bits): Piece {
    var s := Speak(pen, lists, key, Chars, G.Characters);
    Piece([Word(s.code, text, Nothing)], s.lists)
  }

  /** The end of an element is remembered only in a start tag. */
  function EndPiece(pen: Pen, lists: Lists, key: Key): Piece {
    if key.place == Tag then
      var s := Speak(pen, lists, key, End, G.EndElement);
      Piece([Word(s.code, [], Nothing)], s.lists)
    else Piece([Word(Code(pen, Built(pen, key.place, |Of(lists, key)|, G.EndElement)), [], Nothing)], lists)
  }

  function ElementPiece(pen: Pen, lists: Lists, key: Key, e: Element): Piece
    decreases e, 0
  {
    var start := StartPiece(pen, lists, key, e);
    var inner := InnerPiece(pen, start.lists, e.qname, e.tag, e.body);
    Piece(start.words + inner.words, inner.lists)
  }

  /** An element behind its name. */
  function InnerPiece(pen: Pen, lists: Lists, owner: nat, tag: seq<Mark>, body: Body): Piece
    decreases body, 2
  {
    var marks := MarksPiece(pen, lists, owner, tag);
    var rest := BodyPiece(pen, marks.lists, owner, body);
    Piece(marks.words + rest.words, rest.lists)
  }

  function BodyPiece(pen: Pen, lists: Lists, owner: nat, body: Body): Piece
    decreases body, 1
  {
    match body
    case Children(nodes) =>
      var content := NodesPiece(pen, lists, Key(owner, Tag), nodes);
      var end := EndPiece(pen, content.lists, Key(owner, if nodes == [] then Tag else Inside));
      Piece(content.words + end.words, end.lists)
    case Typed(selection, text) =>
      var s := MarkPiece(pen, lists, owner, selection, true);
      Piece(s.words + [Word(Code(pen, [Part(0, 2)]), text, Nothing), Word(Code(pen, [Part(0, 2)]), [], Nothing)], s.lists)
    case Alone(before, root, after) =>
      Piece([Word(Code(pen, Built(pen, Tag, |Of(lists, Key(owner, Tag))|, G.SelfContained)), [], Nothing, pad := true)]
              + AlonePiece(pen, before, root, after), lists)
  }

  /** A fragment of its own: nothing has been said in it yet. */
  function AlonePiece(pen: Pen, before: seq<Note>, root: Element, after: seq<Note>): seq<Word>
    decreases root, 1
  {
    var inner := ElementPiece(pen, map[], Key(NO_NAME, Top), root);
    [Word([], [], Nothing)] + NoteWords(pen, map[], before) + inner.words + NoteWords(pen, inner.lists, after)
      + [Word(Code(pen, Built(pen, Top, |Of(inner.lists, Key(NO_NAME, Top))|, G.EndDocument)), [], Nothing, pad := true)]
  }

  function NodePiece(pen: Pen, lists: Lists, key: Key, node: Node): Piece
    decreases node, 0
  {
    match node
    case Child(element) => ElementPiece(pen, lists, key, element)
    case Characters(text) => CharsPiece(pen, lists, key, text)
    case Aside(note) => Piece([NoteWord(pen, lists, key, note)], lists)
  }

  /** The first node stands in the start tag still, the others behind it. */
  function NodesPiece(pen: Pen, lists: Lists, key: Key, nodes: seq<Node>): Piece
    decreases nodes, 0
  {
    if nodes == [] then Piece([], lists)
    else
      var first := NodePiece(pen, lists, key, nodes[0]);
      var rest := NodesPiece(pen, first.lists, key.(place := if key.place == Tag then Inside else key.place), nodes[1..]);
      Piece(first.words + rest.words, rest.lists)
  }

  function OuterNotes(pen: Pen, notes: seq<Note>, behind: bool): seq<Word> {
    if notes == [] then []
    else [Word(Code(pen, if behind then Epilog(pen, notes[0].kind) else Prolog(pen, notes[0].kind)), notes[0].text, Nothing)]
           + OuterNotes(pen, notes[1..], behind)
  }

  function DocWords(pen: Pen, doc: Doc): seq<Word> {
    match doc
    case Document(before, root, after) =>
      [Word([], [], Nothing)] + OuterNotes(pen, before, false)
        + [Word(Code(pen, Prolog(pen, G.StartElement)), root.spelling, ElementName(root.qname, root.name, true))]
        + InnerPiece(pen, map[], root.qname, root.tag, root.body).words
        + OuterNotes(pen, after, true) + [Word(Code(pen, Epilog(pen, G.EndDocument)), [], Nothing)]
    case Fragment(nodes) =>
      var inner := NodesPiece(pen, map[], Key(NO_NAME, Top), nodes);
      [Word([], [], Nothing)] + inner.words
        + [Word(Code(pen, Built(pen, Top, |Of(inner.lists, Key(NO_NAME, Top))|, G.EndDocument)), [], Nothing)]
  }

  /** The bits of the words, the first of which starts at `pos`. */
  function Spell(words: seq<Word>, pos: nat): Bits {
    if words == [] then []
    else
      var bits := Padded(words[0], pos);
      bits + Spell(words[1..], pos + |bits|)
  }

  function Padded(w: Word, pos: nat): Bits {
    var bits := w.code + w.rest;
    bits + if w.pad then seq((8 - (pos + |bits|) % 8) % 8, _ => false) else []
  }

  //
  // What is understood
  //

  /** The content of an event as the reader of names and values finds it, up to `end`. */
  predicate Conveys(c: E.Content, w: Word, end: nat) {
    && c.ok && c.end == end
    && match w.sense
       case Nothing => true
       case ElementName(qname, name, spelled) => NameIs(c, qname, name, spelled)
       case AttributeName(qname, name, spelled, nil, typed) =>
         && NameIs(c, qname, name, spelled)
         && c.setsNil == nil.Some? && (nil.Some? ==> c.nil == nil.value) && c.simpleType == typed
       case Prefix(local, prefix) => c.localNamespace == local && (local ==> c.prefix == prefix)
  }

  /** A spelled name is read and entered into the table; a known one stands there. */
  predicate NameIs(c: E.Content, qname: nat, name: Name, spelled: bool) {
    if spelled then c.qname == qname && c.name == name else qname < |c.names| && c.names[qname] == name
  }

  /** Event i and those behind it are conveyed. */
  ghost predicate Delivered(contents: nat -> E.Content, words: seq<Word>, pos: nat, i: nat)
    decreases |words|
  {
    words != [] ==>
      && Conveys(contents(i), words[0], pos + |words[0].code| + |words[0].rest|)
      && Delivered(contents, words[1..], pos + |Padded(words[0], pos)|, i + 1)
  }

  function MarkEvent(m: Mark): E.SinkEvent {
    if m.Attribute? then E.Attributed(m.name) else E.Other(G.NamespaceDeclaration)
  }

  function MarkEvents(marks: seq<Mark>): seq<E.SinkEvent> {
    seq(|marks|, k requires 0 <= k < |marks| => MarkEvent(marks[k]))
  }

  function NoteEvents(notes: seq<Note>): seq<E.SinkEvent> {
    seq(|notes|, k requires 0 <= k < |notes| => E.Other(notes[k].kind))
  }

  /** The name of an element behind its start tag, where a local declaration may have changed the prefix. */
  function Renamed(name: Name, marks: seq<Mark>): Name
    decreases |marks|
  {
    if marks == [] then name
    else
      var m := marks[|marks| - 1];
      if m.Declaration? && m.local then name.(prefix := m.prefix) else Renamed(name, marks[..|marks| - 1])
  }

  function ElementEvents(e: Element): seq<E.SinkEvent>
    decreases e, 0
  {
    [E.Started(e.name)] + InnerEvents(e.name, e.tag, e.body)
  }

  function InnerEvents(name: Name, tag: seq<Mark>, body: Body): seq<E.SinkEvent>
    decreases body, 2
  {
    MarkEvents(tag) + BodyEvents(Renamed(name, tag), body)
  }

  /** A fragment of its own does not start its element once more. */
  function BodyEvents(name: Name, body: Body): seq<E.SinkEvent>
    decreases body, 1
  {
    match body
    case Children(nodes) => NodesEvents(nodes) + [E.Ended(name)]
    case Typed(selection, _) => [MarkEvent(selection), E.Other(G.Characters), E.Ended(name)]
    case Alone(before, root, after) => NoteEvents(before) + InnerEvents(name, root.tag, root.body) + NoteEvents(after)
  }

  function NodeEvents(node: Node): seq<E.SinkEvent>
    decreases node, 0
  {
    match node
    case Child(element) => ElementEvents(element)
    case Characters(_) => [E.Other(G.Characters)]
    case Aside(note) => [E.Other(note.kind)]
  }

  function NodesEvents(nodes: seq<Node>): seq<E.SinkEvent>
    decreases nodes, 0
  {
    if nodes == [] then [] else NodeEvents(nodes[0]) + NodesEvents(nodes[1..])
  }

  function DocEvents(doc: Doc): seq<E.SinkEvent> {
    match doc
    case Document(before, root, after) => NoteEvents(before) + ElementEvents(root) + NoteEvents(after)
    case Fragment(nodes) => NodesEvents(nodes)
  }

  //
  // Documents that can be said under the options
  //

  predicate Whole(pen: Pen, bits: Bits) {
    pen.mode == ByteAligned ==> |bits| % 8 == 0
  }

  /** A name takes two bits at least: those of its URI. */
  predicate NameOk(pen: Pen, qname: nat, spelling: Bits) {
    qname < NO_NAME && |spelling| >= 2 && Whole(pen, spelling)
  }

  predicate MarkOk(pen: Pen, m: Mark) {
    match m
    case Attribute(_, qname, spelling, value, _) => NameOk(pen, qname, spelling) && Whole(pen, value)
    case Declaration(spelling, _, _) => pen.options.preservePrefixes && Whole(pen, spelling)
  }

  predicate NoteOk(pen: Pen, n: Note) {
    && ((n.kind == G.Comment && pen.options.preserveComments) || (n.kind == G.ProcessingInstruction && pen.options.preservePis))
    && Whole(pen, n.text)
  }

  predicate ElementOk(pen: Pen, e: Element)
    decreases e, 0
  {
    NameOk(pen, e.qname, e.spelling) && (forall m <- e.tag :: MarkOk(pen, m)) && BodyOk(pen, e.name, e.body)
  }

  predicate BodyOk(pen: Pen, name: Name, body: Body)
    decreases body, 1
  {
    match body
    case Children(nodes) => forall n <- nodes :: NodeOk(pen, n, false)
    case Typed(selection, text) => MarkOk(pen, selection) && selection.Attribute? && selection.nil.None? && Whole(pen, text)
    case Alone(before, root, after) =>
      && pen.options.selfContained && root.name.uri == name.uri && root.name.local == name.local
      && (forall n <- before + after :: NoteOk(pen, n)) && ElementOk(pen, root)
  }

  predicate NodeOk(pen: Pen, node: Node, top: bool)
    decreases node, 0
  {
    match node
    case Child(element) => ElementOk(pen, element)
    case Characters(text) => !top && Whole(pen, text)
    case Aside(note) =>
      NoteOk(pen, note) || (!top && note.kind == G.EntityReference && pen.options.preserveDtd && Whole(pen, note.text))
  }

  predicate DocOk(pen: Pen, doc: Doc) {
    match doc
    case Document(before, root, after) =>
      && (forall n <- before :: NoteOk(pen, n) || (n.kind == G.Dtd && pen.options.preserveDtd && Whole(pen, n.text)))
      && ElementOk(pen, root) && (forall n <- after :: NoteOk(pen, n))
    case Fragment(nodes) => forall n <- nodes :: NodeOk(pen, n, true)
  }

  //
  // Documents that the decoder's stacks hold
  //

  /** The element is marked nil by the last xsi:nil attribute of its tag. */
  predicate NilBy(marks: seq<Mark>)
    decreases |marks|
  {
    marks != [] &&
      var m := marks[|marks| - 1];
      if m.Attribute? && m.nil.Some? then m.nil.value else NilBy(marks[..|marks| - 1])
  }

  /**
   * The element can start where `open` elements are open, `height` grammars stand in the fragment and
   * `fragments` fragments are open, each stack holding `depth` entries; elements marked nil are empty.
   */
  predicate ElementRoom(e: Element, open: nat, height: nat, fragments: nat, depth: nat)
    decreases e, 0
  {
    open < depth && height < depth && BodyRoom(NilBy(e.tag), e.body, open + 1, height + 1, fragments, depth)
  }

  predicate BodyRoom(nil: bool, body: Body, open: nat, height: nat, fragments: nat, depth: nat)
    decreases body, 1
  {
    match body
    case Children(nodes) => (nodes != [] ==> !nil) && forall n <- nodes :: NodeRoom(n, open, height, fragments, depth)
    case Typed(_, _) => !nil
    case Alone(_, root, _) =>
      && !nil && fragments < depth && open < depth && 1 < depth
      && BodyRoom(NilBy(root.tag), root.body, open, 2, fragments + 1, depth)
  }

  predicate NodeRoom(node: Node, open: nat, height: nat, fragments: nat, depth: nat)
    decreases node, 0
  {
    node.Child? ==> ElementRoom(node.element, open, height, fragments, depth)
  }

  predicate DocRoom(doc: Doc, depth: nat) {
    match doc
    case Document(_, root, _) => ElementRoom(root, 0, 1, 1, depth)
    case Fragment(nodes) => forall n <- nodes :: NodeRoom(n, 0, 1, 1, depth)
  }
}
