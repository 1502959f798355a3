// The EXI event loop (Efficient XML Interchange 1.0, sections 8.4.1 to 8.4.3): a stack of grammars per
// fragment, a stack of self-contained fragments, and the stack of open elements, kept in step.
module ExiEvents {
  import opened Common
  import opened ExiBits
  import opened ExiGrammars

  type Text = seq<byte>
  datatype Name = Name(uri: Text, local: Text, prefix: Text)

  predicate SameName(a: Name, b: Name) {
    a.uri == b.uri && a.local == b.local
  }

  datatype GrammarFrame = GrammarFrame(kind: GrammarKind, owner: nat)

  /** The decode state of one fragment: its grammar stack, top last, and what it has learned. */
  datatype FragmentState = FragmentState(grammars: seq<GrammarFrame>, productions: seq<Learned>)

  /** One self-contained fragment; the outermost document is the first frame. */
  datatype Frame = Frame(state: FragmentState, expectedRoot: Name, rootDepth: nat, rootStarted: bool)

  /** What the XML sink is told. */
  datatype SinkEvent = Started(name: Name) | Ended(name: Name) | Attributed(name: Name) | Other(event: EventKind)

  /**
   * The content of an event, which this model does not decode: whether reading it and telling the sink
   * succeed, where the input stands then, the name or flag it yields, and the table of names at that point.
   */
  datatype Content = Content(ok: bool, end: nat, qname: nat, name: Name, setsNil: bool, nil: bool,
                             localNamespace: bool, prefix: Text, simpleType: bool, names: seq<Name>)

  /** The name of an event: read behind its code, or that of the production's entry in the table. */
  function NameOf(d: Decoded, content: Content): Option<Name> {
    if d.qnameEncoded then Some(content.name)
    else if d.qname < |content.names| then Some(content.names[d.qname])
    else None
  }

  //
  // Event codes of all grammars
  //

  predicate Bottom(kind: GrammarKind) {
    kind in {Document, DocContent, DocumentEnd, Fragment, FragmentContent}
  }

  predicate Inner(kind: GrammarKind) {
    kind in {StartTagContent, ElementContent, SchemaSimpleTypeContent, SchemaSimpleTypeEnd}
  }

  function Plain(event: EventKind, next: GrammarKind): Decoded {
    Decoded(Production(event, next, false, false))
  }

  function CommentOrPi(data: seq<byte>, mode: InputMode, pos: nat, o: Options, next: GrammarKind): Option<(Decoded, nat)> {
    match ChoiceRead(data, mode, pos, ThirdCount(o))
    case None => None
    case Some(c) => Some((Plain(if o.preserveComments && c.0 == 0 then Comment else ProcessingInstruction, next), c.1))
  }

  function DocContentEvent(data: seq<byte>, mode: InputMode, pos: nat, o: Options): Option<(Decoded, nat)> {
    var root := Decoded(Production(StartElement, DocumentEnd, true, false), qnameEncoded := true);
    if !o.preserveDtd && !HasThird(o) then Some((root, pos))
    else
      match ChoiceRead(data, mode, pos, 2)
      case None => None
      case Some(first) =>
        if first.0 == 0 then Some((root, first.1))
        else
          match ChoiceRead(data, mode, first.1, One(o.preserveDtd) + One(HasThird(o)))
          case None => None
          case Some(second) =>
            if o.preserveDtd && second.0 == 0 then Some((Plain(Dtd, DocContent), second.1))
            else CommentOrPi(data, mode, second.1, o, DocContent)
  }

  function DocumentEndEvent(data: seq<byte>, mode: InputMode, pos: nat, o: Options): Option<(Decoded, nat)> {
    var end := Decoded(Production(EndDocument, DocumentEnd, false, true));
    if !HasThird(o) then Some((end, pos))
    else
      match ChoiceRead(data, mode, pos, 2)
      case None => None
      case Some(first) => if first.0 == 0 then Some((end, first.1)) else CommentOrPi(data, mode, first.1, o, DocumentEnd)
  }

  function FragmentEvent(data: seq<byte>, mode: InputMode, pos: nat, listed: seq<Learned>, o: Options): Option<(Decoded, nat)> {
    var n := |listed|;
    match ChoiceRead(data, mode, pos, n + 2 + One(HasThird(o)))
    case None => None
    case Some(first) =>
      if first.0 < n then Some((Decoded(listed[first.0].production, qname := listed[first.0].qname), first.1))
      else if first.0 == n then
        Some((Decoded(Production(StartElement, FragmentContent, true, false), qnameEncoded := true, learn := true), first.1))
      else if first.0 == n + 1 then Some((Decoded(Production(EndDocument, FragmentContent, false, true)), first.1))
      else CommentOrPi(data, mode, first.1, o, FragmentContent)
  }

  function SimpleTypeEvent(data: seq<byte>, mode: InputMode, pos: nat, d: Decoded): Option<(Decoded, nat)> {
    match ChoiceRead(data, mode, pos, 2)
    case None => None
    case Some(c) => if c.0 != 0 then None else Some((d, c.1))
  }

  function EventRead(data: seq<byte>, mode: InputMode, pos: nat, top: GrammarFrame, ps: seq<Learned>,
                     o: Options): Option<(Decoded, nat)> {
    match top.kind
    case Document => Some((Plain(StartDocument, DocContent), pos))
    case Fragment => Some((Plain(StartDocument, FragmentContent), pos))
    case DocContent => DocContentEvent(data, mode, pos, o)
    case DocumentEnd => DocumentEndEvent(data, mode, pos, o)
    case FragmentContent => FragmentEvent(data, mode, pos, Listed(ps, NO_NAME, FragmentContent), o)
    case StartTagContent => ElementEvent(data, mode, pos, top.kind, Listed(ps, top.owner, top.kind), o)
    case ElementContent => ElementEvent(data, mode, pos, top.kind, Listed(ps, top.owner, top.kind), o)
    case SchemaSimpleTypeContent => SimpleTypeEvent(data, mode, pos, Plain(Characters, SchemaSimpleTypeEnd))
    case SchemaSimpleTypeEnd =>
      SimpleTypeEvent(data, mode, pos, Decoded(Production(EndElement, SchemaSimpleTypeEnd, false, true)))
  }

  /** The events each grammar can yield, and what they do to the stack. */
  predicate Offered(kind: GrammarKind, d: Decoded) {
    var p := d.production;
    match p.event
    case StartDocument => (kind == Document && p == Production(StartDocument, DocContent, false, false))
                          || (kind == Fragment && p == Production(StartDocument, FragmentContent, false, false))
    case EndDocument => (kind == DocumentEnd || kind == FragmentContent) && p.pop
    case StartElement =>
      && p.push && !p.pop && (d.learn ==> kind in {FragmentContent, StartTagContent, ElementContent})
      && ((kind == DocContent && p.next == DocumentEnd) || (kind == FragmentContent && p.next == FragmentContent)
          || (kind in {StartTagContent, ElementContent} && p.next == ElementContent))
    case EndElement => Inner(kind) && p.pop && (d.learn ==> kind == StartTagContent)
    case Attribute => kind == StartTagContent && p == Production(Attribute, StartTagContent, false, false)
    case NamespaceDeclaration => kind == StartTagContent && p == Production(NamespaceDeclaration, StartTagContent, false, false)
    case SelfContained => kind == StartTagContent
    case Characters =>
      && !p.push && !p.pop && (d.learn ==> kind in {StartTagContent, ElementContent})
      && ((kind in {StartTagContent, ElementContent} && p.next == ElementContent)
          || (kind == SchemaSimpleTypeContent && p.next == SchemaSimpleTypeEnd))
    case _ =>
      && !p.push && !p.pop
      && ((kind in {DocContent, DocumentEnd, FragmentContent} && p.next == kind)
          || (kind in {StartTagContent, ElementContent} && p.next == ElementContent))
  }

  /** A learned production is one its grammar can learn, with the effect learning gives it. */
  predicate LearnedOk(p: Learned) {
    && p.production == ProductionFor(p.grammar, p.event)
    && match p.grammar
       case FragmentContent => p.event == StartElement
       case StartTagContent => p.event in {StartElement, Characters, EndElement, Attribute}
       case ElementContent => p.event in {StartElement, Characters}
       case _ => false
  }

  ghost predicate TablesOk(ps: seq<Learned>) {
    forall k :: 0 <= k < |ps| ==> LearnedOk(ps[k])
  }

  lemma ListedOk(ps: seq<Learned>, owner: nat, grammar: GrammarKind, k: nat)
    requires TablesOk(ps) && k < |Listed(ps, owner, grammar)|
    ensures var p := Listed(ps, owner, grammar)[k]; LearnedOk(p) && p.grammar == grammar
  {
    ListedBelong(ps, owner, grammar);
    var p := Listed(ps, owner, grammar)[k];
    var i :| 0 <= i < |ps| && ps[i] == p;
  }

  lemma LearnedIsOffered(p: Learned)
    requires LearnedOk(p)
    ensures Offered(p.grammar, Decoded(p.production, qname := p.qname))
  {
  }

  lemma BuiltInIsOffered(grammar: GrammarKind, o: Options, event: EventKind)
    requires grammar == StartTagContent || grammar == ElementContent
    requires Some(event) in SecondLevel(grammar, o) || event == Comment || event == ProcessingInstruction || event == EndElement
    ensures Offered(grammar, BuiltIn(grammar, event))
  {
    if Some(event) in SecondLevel(grammar, o) { SecondLevelHas(grammar, o, event); }
  }

  lemma SecondLevelHas(grammar: GrammarKind, o: Options, event: EventKind)
    requires Some(event) in SecondLevel(grammar, o)
    ensures event in {EndElement, Attribute, NamespaceDeclaration, SelfContained, StartElement, Characters, EntityReference}
    ensures grammar != StartTagContent ==> event in {StartElement, Characters, EntityReference}
  {
  }

  /** Whatever is read is an event the grammar offers. */
  lemma ReadIsOffered(data: seq<byte>, mode: InputMode, pos: nat, top: GrammarFrame, ps: seq<Learned>, o: Options)
    requires TablesOk(ps) && EventRead(data, mode, pos, top, ps, o).Some?
    ensures Offered(top.kind, EventRead(data, mode, pos, top, ps, o).value.0)
  {
    hide ChoiceRead; hide SecondLevel; hide BuiltIn; hide Listed; hide TablesOk; hide LearnedOk;
    if top.kind == FragmentContent {
      FragmentIsOffered(data, mode, pos, ps, o);
    } else if top.kind == StartTagContent || top.kind == ElementContent {
      ElementIsOffered(data, mode, pos, top, ps, o);
    }
  }

  lemma FragmentIsOffered(data: seq<byte>, mode: InputMode, pos: nat, ps: seq<Learned>, o: Options)
    requires TablesOk(ps) && FragmentEvent(data, mode, pos, Listed(ps, NO_NAME, FragmentContent), o).Some?
    ensures Offered(FragmentContent, FragmentEvent(data, mode, pos, Listed(ps, NO_NAME, FragmentContent), o).value.0)
  {
    hide ChoiceRead; hide Listed; hide TablesOk;
    var listed := Listed(ps, NO_NAME, FragmentContent);
    var first := ChoiceRead(data, mode, pos, |listed| + 2 + One(HasThird(o))).value;
    if first.0 < |listed| {
      ListedOk(ps, NO_NAME, FragmentContent, first.0);
      LearnedIsOffered(listed[first.0]);
    }
  }

  lemma ElementIsOffered(data: seq<byte>, mode: InputMode, pos: nat, top: GrammarFrame, ps: seq<Learned>, o: Options)
    requires TablesOk(ps) && (top.kind == StartTagContent || top.kind == ElementContent)
    requires ElementEvent(data, mode, pos, top.kind, Listed(ps, top.owner, top.kind), o).Some?
    ensures Offered(top.kind, ElementEvent(data, mode, pos, top.kind, Listed(ps, top.owner, top.kind), o).value.0)
  {
    hide ChoiceRead; hide Listed; hide TablesOk; hide BuiltIn; hide Offered; hide SecondLevel;
    var listed := Listed(ps, top.owner, top.kind);
    var first := ChoiceRead(data, mode, pos, FirstCount(top.kind, |listed|)).value;
    if first.0 < |listed| {
      ListedOk(ps, top.owner, top.kind, first.0);
      LearnedIsOffered(listed[first.0]);
    } else if top.kind == ElementContent && first.0 == |listed| {
      BuiltInIsOffered(top.kind, o, EndElement);
    } else {
      var second := ChoiceRead(data, mode, first.1, SecondCount(top.kind, o)).value;
      match SecondLevel(top.kind, o)[second.0]
      case Some(event) => BuiltInIsOffered(top.kind, o, event);
      case None =>
        BuiltInIsOffered(top.kind, o, Comment);
        BuiltInIsOffered(top.kind, o, ProcessingInstruction);
    }
  }

  //
  // The stacks
  //

  function TopOf(g: seq<GrammarFrame>): GrammarFrame
    requires g != []
  {
    g[|g| - 1]
  }

  /** Pop, or replace the top and maybe push the grammar of a child element. */
  function Transition(g: seq<GrammarFrame>, p: Production, child: nat): seq<GrammarFrame>
    requires g != []
  {
    if p.pop then g[..|g| - 1]
    else
      g[..|g| - 1] + [TopOf(g).(kind := p.next)] + if p.push then [GrammarFrame(StartTagContent, child)] else []
  }

  /** Only the lowest grammar is a document's or fragment's. */
  ghost predicate StackOk(g: seq<GrammarFrame>) {
    && (g != [] ==> Bottom(g[0].kind))
    && (forall k :: 1 <= k < |g| ==> Inner(g[k].kind))
  }

  lemma TransitionOk(g: seq<GrammarFrame>, d: Decoded, child: nat)
    requires g != [] && StackOk(g) && Offered(TopOf(g).kind, d) && d.production.event != SelfContained
    ensures StackOk(Transition(g, d.production, child))
    ensures |Transition(g, d.production, child)| ==
              if d.production.pop then |g| - 1 else if d.production.event == StartElement then |g| + 1 else |g|
    ensures d.production.pop <==> d.production.event in {EndDocument, EndElement}
    ensures d.production.event == EndDocument ==> |g| == 1
    ensures d.production.event in {EndElement, Attribute, NamespaceDeclaration, Characters} ==> |g| > 1
  {
  }

  /** Heights of one fragment's grammar stack, when `depth` elements are open. */
  predicate HeightOk(f: Frame, outermost: bool, depth: nat) {
    if outermost then |f.state.grammars| == depth + 1
    else if f.rootStarted then |f.state.grammars| + f.rootDepth == depth + 2 && depth + 1 >= f.rootDepth >= 1
    else |f.state.grammars| == 1 && depth == f.rootDepth >= 1
  }

  /** How many elements were open when frame k was last on top. */
  function DepthOf(frames: seq<Frame>, k: nat, depth: nat): nat
    requires k < |frames|
  {
    if k + 1 < |frames| then frames[k + 1].rootDepth else depth
  }

  ghost predicate FrameOk(frames: seq<Frame>, k: nat, depth: nat)
    requires k < |frames|
  {
    && StackOk(frames[k].state.grammars) && TablesOk(frames[k].state.productions)
    && HeightOk(frames[k], k == 0, DepthOf(frames, k, depth))
    && (k + 1 < |frames| ==>
          frames[k].state.grammars != [] && TopOf(frames[k].state.grammars).kind == StartTagContent)
  }

  ghost predicate FramesOk(frames: seq<Frame>, depth: nat) {
    frames != [] && forall k: nat :: k < |frames| ==> FrameOk(frames, k, depth)
  }

  /** The elements a log of sink events leaves open; None when an end does not match its start. */
  function OpenNames(log: seq<SinkEvent>): Option<seq<Name>> {
    if |log| == 0 then Some([])
    else
      match OpenNames(log[..|log| - 1])
      case None => None
      case Some(open) =>
        match log[|log| - 1]
        case Started(name) => Some(open + [name])
        case Ended(name) =>
          if |open| > 0 && SameName(open[|open| - 1], name) then Some(open[..|open| - 1]) else None
        case _ => Some(open)
  }

  lemma OpenNext(log: seq<SinkEvent>, e: SinkEvent)
    requires OpenNames(log).Some?
    ensures var open := OpenNames(log).value;
      OpenNames(log + [e]) == match e
        case Started(name) => Some(open + [name])
        case Ended(name) => if |open| > 0 && SameName(open[|open| - 1], name) then Some(open[..|open| - 1]) else None
        case _ => Some(open)
  {
    assert (log + [e])[..|log|] == log;
  }

  /** The names are the same up to their prefixes. */
  predicate SameNames(a: seq<Name>, b: seq<Name>) {
    |a| == |b| && forall k :: 0 <= k < |a| ==> SameName(a[k], b[k])
  }

  /** Ending the innermost open element is balanced. */
  lemma EndBalances(log: seq<SinkEvent>, open: seq<Name>)
    requires OpenNames(log).Some? && SameNames(OpenNames(log).value, open) && open != []
    ensures var after := OpenNames(log + [Ended(open[|open| - 1])]);
      after.Some? && SameNames(after.value, open[..|open| - 1])
  {
    OpenNext(log, Ended(open[|open| - 1]));
  }

  //
  // Frame lemmas
  //

  /** The top frame after an event that only moves the grammar stack. */
  function WithTop(frames: seq<Frame>, f: Frame): seq<Frame>
    requires frames != []
  {
    frames[..|frames| - 1] + [f]
  }

  lemma TopHeight(frames: seq<Frame>, depth: nat)
    requires FramesOk(frames, depth)
    ensures var f := frames[|frames| - 1];
      && StackOk(f.state.grammars) && TablesOk(f.state.productions) && HeightOk(f, |frames| == 1, depth)
  {
    assert FrameOk(frames, |frames| - 1, depth);
  }

  /** Replacing the top frame by one with the right heights keeps all frames right. */
  lemma WithTopOk(frames: seq<Frame>, f: Frame, depth: nat, depth': nat)
    requires FramesOk(frames, depth)
    requires StackOk(f.state.grammars) && TablesOk(f.state.productions) && HeightOk(f, |frames| == 1, depth')
    requires f.rootDepth == frames[|frames| - 1].rootDepth
    ensures FramesOk(WithTop(frames, f), depth')
  {
    hide StackOk; hide TablesOk; hide HeightOk;
    var frames' := WithTop(frames, f);
    forall k: nat | k < |frames'|
      ensures FrameOk(frames', k, depth')
    {
      if k < |frames| - 1 { assert FrameOk(frames, k, depth); }
    }
  }

  /** Opening a self-contained fragment freezes the frame below. */
  lemma PushOk(frames: seq<Frame>, root: Name, depth: nat)
    requires FramesOk(frames, depth) && depth > 0
    requires var g := frames[|frames| - 1].state.grammars; g != [] && TopOf(g).kind == StartTagContent
    ensures FramesOk(frames + [Frame(FragmentState([GrammarFrame(Fragment, NO_NAME)], []), root, depth, false)], depth)
  {
    hide StackOk; hide TablesOk; hide HeightOk;
    var f := Frame(FragmentState([GrammarFrame(Fragment, NO_NAME)], []), root, depth, false);
    var frames' := frames + [f];
    FreshFragment(root, depth);
    forall k: nat | k < |frames'|
      ensures FrameOk(frames', k, depth)
    {
      if k < |frames| { assert FrameOk(frames, k, depth); }
    }
  }

  lemma FreshFragment(root: Name, depth: nat)
    requires depth > 0
    ensures var f := Frame(FragmentState([GrammarFrame(Fragment, NO_NAME)], []), root, depth, false);
      StackOk(f.state.grammars) && TablesOk(f.state.productions) && HeightOk(f, false, depth)
  {
  }

  /** Closing one: its root, an element of the frame below, has ended inside it. */
  lemma PopOk(frames: seq<Frame>, depth: nat)
    requires FramesOk(frames, depth) && |frames| > 1
    requires var f := frames[|frames| - 1]; f.rootStarted && depth + 1 == f.rootDepth
    ensures var below := frames[|frames| - 2];
      && below.state.grammars != []
      && FramesOk(WithTop(frames[..|frames| - 1],
                          below.(state := below.state.(grammars := below.state.grammars[..|below.state.grammars| - 1]))), depth)
  {
    var n := |frames| - 1;
    var below := frames[n - 1];
    assert FrameOk(frames, n - 1, depth);
    var g := below.state.grammars;
    var f := below.(state := below.state.(grammars := g[..|g| - 1]));
    var frames' := WithTop(frames[..n], f);
    assert StackOk(g[..|g| - 1]);
    forall k: nat | k < |frames'|
      ensures FrameOk(frames', k, depth)
    {
      assert FrameOk(frames, k, depth);
    }
  }

  /** Learning keeps the table of the fragment sound. */
  function WithLearned(ps: seq<Learned>, p: Learned): seq<Learned> {
    if exists i :: 0 <= i < |ps| && SameKey(ps[i], p) then ps else ps + [p]
  }

  lemma LearnedStays(ps: seq<Learned>, owner: nat, kind: GrammarKind, d: Decoded, qname: nat)
    requires TablesOk(ps) && Offered(kind, d) && d.learn && d.production.event in {StartElement, EndElement, Attribute, Characters}
    requires Inner(kind) || kind == FragmentContent
    requires kind != SchemaSimpleTypeContent && kind != SchemaSimpleTypeEnd
    ensures TablesOk(WithLearned(ps, Learned(owner, kind, d.production.event, qname, ProductionFor(kind, d.production.event))))
  {
  }

  //
  // What each event does, and which events are refused
  //

  /** Everything the loop changes. */
  datatype Session = Session(frames: seq<Frame>, elementStack: seq<Name>, elementNil: seq<bool>, log: seq<SinkEvent>, finished: bool)

  /** Nothing decoded: the grammar of a document or fragment stands alone. */
  function Opening(fragment: bool): Session {
    var top := GrammarFrame(if fragment then Fragment else Document, NO_NAME);
    Session([Frame(FragmentState([top], []), Name([], [], []), 0, false)], [], [], [], false)
  }

  datatype Limits = Limits(options: Options, depth: nat, productions: nat)

  predicate Standing(S: Session) {
    S.frames != [] && S.frames[|S.frames| - 1].state.grammars != []
  }

  function TopSet(S: Session, f: Frame): Session
    requires S.frames != []
  {
    S.(frames := WithTop(S.frames, f))
  }

  /** Moved by a production; refused when a child's grammar has no name or no room. */
  function MovedBy(S: Session, lim: Limits, d: Decoded, child: nat): Option<Session> {
    if !Standing(S) then None
    else
      var f := S.frames[|S.frames| - 1];
      var g := f.state.grammars;
      if !d.production.pop && d.production.push && (child == NO_NAME || |g| >= lim.depth) then None
      else Some(TopSet(S, f.(state := f.state.(grammars := Transition(g, d.production, child)))))
  }

  /** A production learned when the event says so; refused when the table is full. */
  function LearnedBy(S: Session, lim: Limits, kind: GrammarKind, owner: nat, d: Decoded, qname: nat): Option<Session> {
    if S.frames == [] then None
    else if !d.learn then Some(S)
    else
      var f := S.frames[|S.frames| - 1];
      var p := Learned(owner, kind, d.production.event, qname, ProductionFor(kind, d.production.event));
      var more := WithLearned(f.state.productions, p);
      if |more| > lim.productions then None else Some(TopSet(S, f.(state := f.state.(productions := more))))
  }

  function SimpleBy(S: Session, lim: Limits, d: Decoded, content: Content, told: SinkEvent): Option<Session> {
    var named := told == Other(NamespaceDeclaration) && content.localNamespace;
    var n := |S.elementStack|;
    if !content.ok || (named && n == 0) then None
    else
      var open := if named then S.elementStack[n - 1 := S.elementStack[n - 1].(prefix := content.prefix)] else S.elementStack;
      MovedBy(S.(elementStack := open, log := S.log + [told]), lim, d, NO_NAME)
  }

  /** The root of a fragment must be the element that is open already. */
  function RootBy(S: Session, lim: Limits, d: Decoded, name: Name, qname: nat): Option<Session> {
    if S.frames == [] || !SameName(name, S.frames[|S.frames| - 1].expectedRoot) then None
    else MovedBy(TopSet(S, S.frames[|S.frames| - 1].(rootStarted := true)), lim, d, qname)
  }

  function StartBy(S: Session, lim: Limits, d: Decoded, kind: GrammarKind, owner: nat, content: Content): Option<Session> {
    if S.frames == [] then None
    else
      var f := S.frames[|S.frames| - 1];
      var nested := |S.frames| > 1;
      var qname := if d.qnameEncoded then content.qname else d.qname;
      // behind the root's end a fragment starts no element
      var name := NameOf(d, content);
      if (nested && f.rootStarted && |S.elementStack| < f.rootDepth) || |S.elementStack| >= lim.depth || !content.ok then None
      else if name.None? then None
      else
        match LearnedBy(S, lim, kind, owner, d, qname)
        case None => None
        case Some(T) =>
          if nested && !f.rootStarted then RootBy(T, lim, d, name.value, qname)
          else
            MovedBy(T.(elementStack := T.elementStack + [name.value], elementNil := T.elementNil + [false],
                       log := T.log + [Started(name.value)]), lim, d, qname)
  }

  function EndBy(S: Session, lim: Limits, d: Decoded, kind: GrammarKind, owner: nat): Option<Session> {
    match LearnedBy(S, lim, kind, owner, d, NO_NAME)
    case None => None
    case Some(T) =>
      var n := |T.elementStack|;
      if n == 0 || |T.elementNil| != n then None
      else
        MovedBy(T.(elementStack := T.elementStack[..n - 1], elementNil := T.elementNil[..n - 1],
                   log := T.log + [Ended(T.elementStack[n - 1])]), lim, d, NO_NAME)
  }

  /** A fragment ends only right behind its root; the document's end finishes. */
  function DocumentBy(S: Session): Option<Session> {
    var n := |S.frames|;
    if n <= 1 then Some(S.(finished := true))
    else if !(S.frames[n - 1].rootStarted && |S.elementStack| + 1 == S.frames[n - 1].rootDepth) then None
    else
      var below := S.frames[n - 2];
      var g := below.state.grammars;
      if g == [] then None
      else Some(S.(frames := WithTop(S.frames[..n - 1], below.(state := below.state.(grammars := g[..|g| - 1])))))
  }

  function SelfBy(S: Session, lim: Limits, kind: GrammarKind): Option<Session> {
    if !lim.options.selfContained || kind != StartTagContent || S.elementStack == [] || |S.frames| >= lim.depth then None
    else
      var root := S.elementStack[|S.elementStack| - 1];
      Some(S.(frames := S.frames + [Frame(FragmentState([GrammarFrame(Fragment, NO_NAME)], []), root, |S.elementStack|, false)]))
  }

  /** The grammar on top becomes that of a simple type. */
  function SimpleTypeBy(S: Session): Option<Session> {
    if !Standing(S) then None
    else
      var f := S.frames[|S.frames| - 1];
      var g := f.state.grammars;
      Some(TopSet(S, f.(state := f.state.(grammars := g[..|g| - 1] + [TopOf(g).(kind := SchemaSimpleTypeContent)]))))
  }

  function AttributeBy(S: Session, lim: Limits, d: Decoded, kind: GrammarKind, owner: nat, content: Content): Option<Session> {
    var name := NameOf(d, content);
    if !content.ok || name.None? then None
    else
      match LearnedBy(S, lim, kind, owner, d, if d.qnameEncoded then content.qname else d.qname)
      case None => None
      case Some(T) =>
        var n := |T.elementNil|;
        if n == 0 then None
        else
          match SimpleBy(if content.setsNil then T.(elementNil := T.elementNil[n - 1 := content.nil]) else T, lim, d, content,
                         Attributed(name.value))
          case None => None
          case Some(U) => if content.simpleType then SimpleTypeBy(U) else Some(U)
  }

  function CharactersBy(S: Session, lim: Limits, d: Decoded, kind: GrammarKind, owner: nat, content: Content): Option<Session> {
    match LearnedBy(S, lim, kind, owner, d, NO_NAME)
    case None => None
    case Some(T) => SimpleBy(T, lim, d, content, Other(Characters))
  }

  function EventBy(S: Session, lim: Limits, d: Decoded, top: GrammarFrame, content: Content): Option<Session> {
    match d.production.event
    case StartDocument => MovedBy(S, lim, d, NO_NAME)
    case EndDocument => DocumentBy(S)
    case StartElement => StartBy(S, lim, d, top.kind, top.owner, content)
    case EndElement => EndBy(S, lim, d, top.kind, top.owner)
    case SelfContained => SelfBy(S, lim, top.kind)
    case Attribute => AttributeBy(S, lim, d, top.kind, top.owner, content)
    case Characters => CharactersBy(S, lim, d, top.kind, top.owner, content)
    case _ => SimpleBy(S, lim, d, content, Other(d.production.event))
  }

  /** The next multiple of eight bits. */
  function ByteStart(pos: nat): nat {
    (pos + 7) / 8 * 8
  }

  lemma AlignedIs(pos: nat, next: nat)
    requires pos <= next < pos + 8 && next % 8 == 0
    ensures next == ByteStart(pos)
  {
  }

  /** Where the next event is read: behind the code and the content, on a byte boundary around a fragment. */
  function Behind(S: Session, d: Decoded, pos: nat, content: Content, size: nat): nat {
    var end := if pos <= content.end <= size then content.end else pos;
    if d.production.event == SelfContained || (d.production.event == EndDocument && |S.frames| > 1) then ByteStart(end) else end
  }

  /** An element marked nil has attributes, namespace declarations and its end only. */
  predicate NilRefuses(S: Session, event: EventKind) {
    && S.elementStack != [] && S.elementNil != [] && S.elementNil[|S.elementNil| - 1]
    && event !in {Attribute, NamespaceDeclaration, EndElement}
  }

  /** One event from `pos` on. */
  function StepBy(S: Session, lim: Limits, data: seq<byte>, mode: InputMode, pos: nat, content: Content): Option<(Session, nat)> {
    if !Standing(S) then None
    else
      var f := S.frames[|S.frames| - 1];
      var top := TopOf(f.state.grammars);
      match EventRead(data, mode, pos, top, f.state.productions, lim.options)
      case None => None
      case Some(read) =>
        if read.1 > 8 * |data| || NilRefuses(S, read.0.production.event) then None
        else
          match EventBy(S, lim, read.0, top, content)
          case None => None
          case Some(T) => Some((T, Behind(S, read.0, read.1, content, 8 * |data|)))
  }

  /** Events i, i + 1, ... up to the document's end; None when one is refused or there are n. */
  function RunBy(S: Session, lim: Limits, data: seq<byte>, mode: InputMode, pos: nat, contents: nat -> Content, i: nat,
                 n: nat): Option<Session>
    decreases n - i
  {
    if i >= n then None
    else
      match StepBy(S, lim, data, mode, pos, contents(i))
      case None => None
      case Some(next) => if next.0.finished then Some(next.0) else RunBy(next.0, lim, data, mode, next.1, contents, i + 1, n)
  }

  /** What a handler did is what its function says. */
  predicate Does(status: Status, S: Session, result: Option<Session>) {
    && (status == Success <==> result.Some?)
    && (status == Success ==> result == Some(S))
  }

  //
  // The loop
  //

  class EventDecoder {
    const options: Options
    const maxDepth: nat
    const maxProductions: nat
    var frames: seq<Frame>
    var elementStack: seq<Name>
    var elementNil: seq<bool>
    var finished: bool
    /** Everything told to the sink. */
    var log: seq<SinkEvent>

    constructor (o: Options, fragment: bool, encodedLength: nat)
      ensures Valid() && !finished && log == [] && options == o && fresh(this)
      ensures Now() == Opening(fragment) && Bounds() == Limits(o, encodedLength + 1, encodedLength * 8 + 1)
    {
      options, maxDepth, maxProductions := o, encodedLength + 1, encodedLength * 8 + 1;
      var kind := if fragment then Fragment else Document;
      frames := [Frame(FragmentState([GrammarFrame(kind, NO_NAME)], []), Name([], [], []), 0, false)];
      elementStack, elementNil, finished, log := [], [], false, [];
    }

    function Now(): Session
      reads this
    {
      Session(frames, elementStack, elementNil, log, finished)
    }

    function Bounds(): Limits {
      Limits(options, maxDepth, maxProductions)
    }

    /** The stacks are in step, and the log leaves exactly the open elements open. */
    ghost predicate Valid()
      reads this
    {
      && (if finished then elementStack == [] else FramesOk(frames, |elementStack|))
      && |elementNil| == |elementStack|
      && OpenNames(log).Some? && SameNames(OpenNames(log).value, elementStack)
    }

    /** The top frame with its grammar stack moved by a production. */
    method ApplyTransition(d: Decoded, child: nat) returns (status: Status)
      requires frames != [] && frames[|frames| - 1].state.grammars != []
      modifies this`frames
      ensures status == Success ==>
                var f := old(frames)[|old(frames)| - 1];
                frames == WithTop(old(frames), f.(state := f.state.(grammars := Transition(f.state.grammars, d.production, child))))
      ensures status in {Success, InvalidNetworkResponse}
      ensures Does(status, Now(), MovedBy(old(Now()), Bounds(), d, child))
    {
      var f := frames[|frames| - 1];
      var g := f.state.grammars;
      if !d.production.pop && d.production.push && (child == NO_NAME || |g| >= maxDepth) {
        return InvalidNetworkResponse;
      }
      frames := WithTop(frames, f.(state := f.state.(grammars := Transition(g, d.production, child))));
      status := Success;
    }

    method LearnProduction(kind: GrammarKind, owner: nat, event: EventKind, qname: nat) returns (status: Status)
      requires frames != []
      modifies this`frames
      ensures status == Success ==>
                var f := old(frames)[|old(frames)| - 1];
                frames == WithTop(old(frames), f.(state := f.state.(productions :=
                  WithLearned(f.state.productions, Learned(owner, kind, event, qname, ProductionFor(kind, event))))))
      ensures status in {Success, BufferTooSmall}
      ensures status == Success <==>
                var f := old(frames)[|old(frames)| - 1];
                |WithLearned(f.state.productions, Learned(owner, kind, event, qname, ProductionFor(kind, event)))| <= maxProductions
    {
      var f := frames[|frames| - 1];
      var p := Learned(owner, kind, event, qname, ProductionFor(kind, event));
      var more := WithLearned(f.state.productions, p);
      if |more| > maxProductions {
        return BufferTooSmall;
      }
      frames := WithTop(frames, f.(state := f.state.(productions := more)));
      status := Success;
    }

    /** Learn when the event says so; the frames stay sound. */
    method LearnIfNew(kind: GrammarKind, owner: nat, d: Decoded, qname: nat) returns (status: Status)
      requires frames != [] && FramesOk(frames, |elementStack|)
      requires frames[|frames| - 1].state.grammars != [] && TopOf(frames[|frames| - 1].state.grammars).kind == kind
      requires Offered(kind, d) && d.production.event in {StartElement, EndElement, Attribute, Characters}
      modifies this`frames
      ensures status == Success ==>
                && FramesOk(frames, |elementStack|) && |frames| == |old(frames)|
                && frames[|frames| - 1].(state := old(frames)[|frames| - 1].state) == old(frames)[|frames| - 1]
                && frames[|frames| - 1].state.grammars == old(frames)[|frames| - 1].state.grammars
      ensures Does(status, Now(), LearnedBy(old(Now()), Bounds(), kind, owner, d, qname))
    {
      hide Offered; hide StackOk; hide TablesOk; hide HeightOk; hide FramesOk;
      if !d.learn {
        return Success;
      }
      var f := frames[|frames| - 1];
      TopHeight(frames, |elementStack|);
      LearnKinds(kind, d);
      LearnedStays(f.state.productions, owner, kind, d, qname);
      var p := Learned(owner, kind, d.production.event, qname, ProductionFor(kind, d.production.event));
      var f' := f.(state := f.state.(productions := WithLearned(f.state.productions, p)));
      SameHeight(f, f', |frames| == 1, |elementStack|);
      WithTopOk(frames, f', |elementStack|, |elementStack|);
      status := LearnProduction(kind, owner, d.production.event, qname);
    }

    /** Move the grammar stack; the depth of open elements has been adjusted already. */
    method Move(d: Decoded, child: nat, ghost depth: nat) returns (status: Status)
      requires frames != [] && FramesOk(frames, depth)
      requires frames[|frames| - 1].state.grammars != []
      requires Offered(TopOf(frames[|frames| - 1].state.grammars).kind, d) && d.production.event !in {SelfContained, EndDocument}
      requires |elementStack| == depth + (if d.production.event == StartElement then 1 else 0)
                                 - (if d.production.event == EndElement then 1 else 0)
      requires |frames| > 1 && d.production.event == StartElement ==> frames[|frames| - 1].rootStarted
      modifies this`frames
      ensures status == Success ==> FramesOk(frames, |elementStack|)
      ensures status == Success && d.production.event !in {StartElement, EndElement} ==>
                && frames != []
                && |frames[|frames| - 1].state.grammars| == |old(frames[|frames| - 1].state.grammars)|
      ensures Does(status, Now(), MovedBy(old(Now()), Bounds(), d, child))
    {
      hide Offered; hide StackOk; hide TablesOk; hide FramesOk; hide Transition;
      var f := frames[|frames| - 1];
      TopHeight(frames, depth);
      TransitionOk(f.state.grammars, d, child);
      ghost var f' := f.(state := f.state.(grammars := Transition(f.state.grammars, d.production, child)));
      WithTopOk(frames, f', depth, |elementStack|);
      status := ApplyTransition(d, child);
    }

    /** An event of the top frame that opens or closes no element. */
    method Simple(d: Decoded, content: Content, told: SinkEvent) returns (status: Status)
      requires Valid() && !finished && frames != [] && frames[|frames| - 1].state.grammars != []
      requires Offered(TopOf(frames[|frames| - 1].state.grammars).kind, d)
      requires d.production.event !in {StartDocument, StartElement, EndElement, EndDocument, SelfContained}
      requires told.Attributed? || told.Other?
      modifies this
      ensures status == Success ==> Valid() && !finished
      ensures status == Success ==>
                && frames != []
                && |frames[|frames| - 1].state.grammars| == |old(frames[|frames| - 1].state.grammars)|
      ensures Does(status, Now(), SimpleBy(old(Now()), Bounds(), d, content, told))
    {
      hide FramesOk; hide Offered; hide OpenNames; hide MovedBy; hide StackOk; hide TablesOk; hide HeightOk; hide Transition;
      if !content.ok {
        return InvalidNetworkResponse;
      }
      if told == Other(NamespaceDeclaration) && content.localNamespace {
        if elementStack == [] {
          return InvalidNetworkResponse;
        }
        var top := elementStack[|elementStack| - 1];
        elementStack := elementStack[|elementStack| - 1 := top.(prefix := content.prefix)];
      }
      OpenNext(log, told);
      log := log + [told];
      status := Move(d, NO_NAME, |elementStack|);
    }

    /** The root of a self-contained fragment is the element that is open already. */
    method AcceptRoot(d: Decoded, name: Name, qname: nat) returns (status: Status)
      requires Valid() && !finished && |frames| > 1 && frames[|frames| - 1].state.grammars != []
      requires !frames[|frames| - 1].rootStarted && d.production.event == StartElement
      requires Offered(TopOf(frames[|frames| - 1].state.grammars).kind, d)
      modifies this
      ensures status == Success ==> Valid() && !finished && log == old(log) && elementStack == old(elementStack)
      ensures Does(status, Now(), RootBy(old(Now()), Bounds(), d, name, qname))
    {
      hide Offered; hide StackOk; hide TablesOk; hide FramesOk; hide Transition;
      var f := frames[|frames| - 1];
      TopHeight(frames, |elementStack|);
      assert f.rootDepth == |elementStack| > 0;
      if !SameName(name, f.expectedRoot) {
        return InvalidNetworkResponse;
      }
      TransitionOk(f.state.grammars, d, qname);
      ghost var f' := f.(rootStarted := true, state := f.state.(grammars := Transition(f.state.grammars, d.production, qname)));
      WithTopOk(frames, f', |elementStack|, |elementStack|);
      frames := WithTop(frames, f.(rootStarted := true));
      ghost var marked := frames;
      status := ApplyTransition(d, qname);
      assert status == Success ==> frames == WithTop(old(frames), f');
    }

    method OnStartElement(d: Decoded, kind: GrammarKind, owner: nat, content: Content) returns (status: Status)
      requires Valid() && !finished && frames != [] && frames[|frames| - 1].state.grammars != []
      requires TopOf(frames[|frames| - 1].state.grammars).kind == kind && Offered(kind, d) && d.production.event == StartElement
      modifies this
      ensures status == Success ==> Valid() && !finished
      ensures Does(status, Now(), StartBy(old(Now()), Bounds(), d, kind, owner, content))
    {
      hide Offered; hide FramesOk; hide HeightOk; hide StackOk; hide TablesOk; hide MovedBy; hide LearnedBy; hide RootBy; hide OpenNames;
      hide Transition;
      var f := frames[|frames| - 1];
      var nested := |frames| > 1;
      if nested && f.rootStarted && |elementStack| < f.rootDepth {
        return InvalidNetworkResponse;
      }
      if |elementStack| >= maxDepth || !content.ok {
        return InvalidNetworkResponse;
      }
      if !d.qnameEncoded && d.qname >= |content.names| {
        return InvalidNetworkResponse;
      }
      var name := if d.qnameEncoded then content.name else content.names[d.qname];
      var qname := if d.qnameEncoded then content.qname else d.qname;
      status := LearnIfNew(kind, owner, d, qname);
      if status != Success {
        return;
      }
      if nested && !f.rootStarted {
        status := AcceptRoot(d, name, qname);
      } else {
        OpenNext(log, Started(name));
        log := log + [Started(name)];
        elementStack := elementStack + [name];
        elementNil := elementNil + [false];
        status := Move(d, qname, |elementStack| - 1);
      }
    }

    /** The grammars never offer an end without an open element. */
    method OnEndElement(d: Decoded, kind: GrammarKind, owner: nat) returns (status: Status)
      requires Valid() && !finished && frames != [] && frames[|frames| - 1].state.grammars != []
      requires TopOf(frames[|frames| - 1].state.grammars).kind == kind && Offered(kind, d) && d.production.event == EndElement
      modifies this
      ensures status == Success ==> Valid() && !finished
      ensures old(elementStack) != []
      ensures Does(status, Now(), EndBy(old(Now()), Bounds(), d, kind, owner))
    {
      hide OpenNames; hide SameNames; hide Offered; hide FramesOk; hide StackOk; hide TablesOk; hide Transition;
      hide HeightOk; hide MovedBy;
      hide LearnedBy;
      EndsOpen(frames, d, |elementStack|);
      status := LearnIfNew(kind, owner, d, NO_NAME);
      if status != Success {
        return;
      }
      var name := elementStack[|elementStack| - 1];
      EndBalances(log, elementStack);
      log := log + [Ended(name)];
      elementStack := elementStack[..|elementStack| - 1];
      elementNil := elementNil[..|elementNil| - 1];
      status := Move(d, NO_NAME, |elementStack| + 1);
    }

    /** A fragment may end once its root has; the outermost document never ends with open elements. */
    method OnEndDocument(d: Decoded) returns (status: Status)
      requires Valid() && !finished && frames != [] && frames[|frames| - 1].state.grammars != []
      requires Offered(TopOf(frames[|frames| - 1].state.grammars).kind, d) && d.production.event == EndDocument
      modifies this
      ensures status == Success ==> Valid()
      ensures |old(frames)| == 1 ==> old(elementStack) == []
      ensures Does(status, Now(), DocumentBy(old(Now())))
    {
      hide Offered; hide FramesOk; hide StackOk; hide TablesOk; hide Transition;
      TopHeight(frames, |elementStack|);
      TransitionOk(frames[|frames| - 1].state.grammars, d, NO_NAME);
      var f := frames[|frames| - 1];
      if |frames| > 1 {
        if !(f.rootStarted && |elementStack| + 1 == f.rootDepth) {
          return InvalidNetworkResponse;
        }
        PopOk(frames, |elementStack|);
        var below := frames[|frames| - 2];
        var g := below.state.grammars;
        frames := WithTop(frames[..|frames| - 1], below.(state := below.state.(grammars := g[..|g| - 1])));
        return Success;
      }
      assert elementStack == [];
      finished := true;
      status := Success;
    }

    method OnSelfContained(d: Decoded, kind: GrammarKind) returns (status: Status)
      requires Valid() && !finished && frames != [] && frames[|frames| - 1].state.grammars != []
      requires TopOf(frames[|frames| - 1].state.grammars).kind == kind
      modifies this
      ensures status == Success ==> Valid() && !finished
      ensures Does(status, Now(), SelfBy(old(Now()), Bounds(), kind))
    {
      hide FramesOk;
      if !options.selfContained || kind != StartTagContent || elementStack == [] || |frames| >= maxDepth {
        return InvalidNetworkResponse;
      }
      var root := elementStack[|elementStack| - 1];
      PushOk(frames, root, |elementStack|);
      frames := frames + [Frame(FragmentState([GrammarFrame(Fragment, NO_NAME)], []), root, |elementStack|, false)];
      status := Success;
    }

    /** An attribute may set xsi:nil or select a simple type for the content. */
    method OnAttribute(d: Decoded, kind: GrammarKind, owner: nat, content: Content) returns (status: Status)
      requires Valid() && !finished && frames != [] && frames[|frames| - 1].state.grammars != []
      requires TopOf(frames[|frames| - 1].state.grammars).kind == kind && Offered(kind, d) && d.production.event == Attribute
      modifies this
      ensures status == Success ==> Valid() && !finished
      ensures Does(status, Now(), AttributeBy(old(Now()), Bounds(), d, kind, owner, content))
    {
      hide Offered; hide FramesOk; hide StackOk; hide TablesOk; hide Transition; hide OpenNames; hide SameNames;
      hide LearnedBy; hide SimpleBy; hide SimpleTypeBy;
      hide HeightOk;
      if !content.ok || (!d.qnameEncoded && d.qname >= |content.names|) {
        return InvalidNetworkResponse;
      }
      var name := if d.qnameEncoded then content.name else content.names[d.qname];
      TopHeight(frames, |elementStack|);
      TransitionOk(frames[|frames| - 1].state.grammars, d, NO_NAME);
      assert elementStack != [];
      status := LearnIfNew(kind, owner, d, if d.qnameEncoded then content.qname else d.qname);
      if status != Success {
        return;
      }
      if content.setsNil {
        elementNil := elementNil[|elementNil| - 1 := content.nil];
      }
      status := Simple(d, content, Attributed(name));
      if status == Success && content.simpleType {
        status := SelectSimpleType();
      }
    }

    /** An element's own grammar, never the document's, becomes that of a simple type; the refusal at depth 0 is not reached. */
    method SelectSimpleType() returns (status: Status)
      requires Valid() && !finished && frames != [] && |frames[|frames| - 1].state.grammars| > 1
      modifies this`frames
      ensures status == Success && Valid()
      ensures var f := old(frames[|frames| - 1]);
        var g := f.state.grammars;
        frames == WithTop(old(frames), f.(state := f.state.(grammars := g[..|g| - 1] + [TopOf(g).(kind := SchemaSimpleTypeContent)])))
      ensures Does(status, Now(), SimpleTypeBy(old(Now())))
    {
      hide FramesOk; hide TablesOk;
      TopHeight(frames, |elementStack|);
      var f := frames[|frames| - 1];
      var g := f.state.grammars;
      var g' := g[..|g| - 1] + [TopOf(g).(kind := SchemaSimpleTypeContent)];
      var f' := f.(state := f.state.(grammars := g'));
      WithTopOk(frames, f', |elementStack|, |elementStack|);
      frames := WithTop(frames, f');
      status := Success;
    }

    method OnCharacters(d: Decoded, kind: GrammarKind, owner: nat, content: Content) returns (status: Status)
      requires Valid() && !finished && frames != [] && frames[|frames| - 1].state.grammars != []
      requires TopOf(frames[|frames| - 1].state.grammars).kind == kind && Offered(kind, d) && d.production.event == Characters
      modifies this
      ensures status == Success ==> Valid() && !finished
      ensures old(elementStack) != []
      ensures Does(status, Now(), CharactersBy(old(Now()), Bounds(), d, kind, owner, content))
    {
      hide Offered; hide FramesOk; hide StackOk; hide TablesOk; hide Transition;
      TopHeight(frames, |elementStack|);
      TransitionOk(frames[|frames| - 1].state.grammars, d, NO_NAME);
      status := LearnIfNew(kind, owner, d, NO_NAME);
      if status != Success {
        return;
      }
      status := Simple(d, content, Other(Characters));
    }

    /** What the event asks for. */
    method Dispatch(d: Decoded, top: GrammarFrame, content: Content) returns (status: Status)
      requires Valid() && !finished && frames != [] && frames[|frames| - 1].state.grammars != []
      requires TopOf(frames[|frames| - 1].state.grammars) == top && Offered(top.kind, d)
      modifies this
      ensures status == Success ==> Valid()
      ensures Does(status, Now(), EventBy(old(Now()), Bounds(), d, top, content))
    {
      hide Offered; hide FramesOk; hide OpenNames; hide SameNames;
      hide MovedBy; hide StartBy; hide EndBy; hide DocumentBy; hide SelfBy; hide AttributeBy; hide CharactersBy; hide SimpleBy;
      match d.production.event
      case StartDocument => status := Move(d, NO_NAME, |elementStack|);
      case EndDocument => status := OnEndDocument(d);
      case StartElement => status := OnStartElement(d, top.kind, top.owner, content);
      case EndElement => status := OnEndElement(d, top.kind, top.owner);
      case SelfContained => status := OnSelfContained(d, top.kind);
      case Attribute => status := OnAttribute(d, top.kind, top.owner, content);
      case Characters => status := OnCharacters(d, top.kind, top.owner, content);
      case _ => status := Simple(d, content, Other(d.production.event));
    }

    /** One turn of the event loop. */
    method Step(input: ExiInput, content: Content) returns (status: Status)
      requires Valid() && !finished && input.Valid()
      modifies this, input
      ensures input.Valid()
      ensures status == Success ==> Valid()
      ensures var next := StepBy(old(Now()), Bounds(), input.data, input.mode, old(input.bitOffset), content);
              && (status == Success <==> next.Some?) && (status == Success ==> next == Some((Now(), input.bitOffset)))
    {
      hide Offered; hide EventRead; hide FramesOk; hide TablesOk; hide OpenNames; hide SameNames; hide StackOk; hide EventBy;
      hide MovedBy; hide Transition; hide ByteStart;
      NotEmpty(frames, |elementStack|);
      TopHeight(frames, |elementStack|);
      var f := frames[|frames| - 1];
      // the loop never finds the grammar stack empty
      assert f.state.grammars != [];
      var top := TopOf(f.state.grammars);
      var read := EventRead(input.data, input.mode, input.bitOffset, top, f.state.productions, options);
      if read.None? || read.value.1 > 8 * |input.data| {
        return InvalidNetworkResponse;
      }
      var d := read.value.0;
      ReadIsOffered(input.data, input.mode, input.bitOffset, top, f.state.productions, options);
      input.bitOffset := read.value.1;
      var event := d.production.event;
      if elementStack != [] && elementNil[|elementNil| - 1] && event !in {Attribute, NamespaceDeclaration, EndElement} {
        return InvalidNetworkResponse;
      }
      if input.bitOffset <= content.end <= 8 * |input.data| {
        input.bitOffset := content.end;
      }
      if event == SelfContained || (event == EndDocument && |frames| > 1) {
        ghost var end := input.bitOffset;
        var aligned := input.AlignByte();
        AlignedIs(end, input.bitOffset);
      }
      status := Dispatch(d, top, content);
    }

    /**
     * Decode until the document ends, which succeeds exactly when every event up to it is accepted; the events
     * told to the sink are then balanced and well nested.
     */
    method DecodeEvents(input: ExiInput, contents: nat -> Content, encodedLength: nat) returns (status: Status)
      requires Valid() && !finished && input.Valid()
      modifies this, input
      ensures Does(status, Now(), RunBy(old(Now()), Bounds(), input.data, input.mode, old(input.bitOffset), contents, 0,
                encodedLength * 8 + 1))
      ensures status == Success ==> finished && OpenNames(log) == Some([])
    {
      hide FramesOk; hide StepBy;
      for eventIndex := 0 to encodedLength * 8 + 1
        invariant Valid() && !finished && input.Valid()
        invariant RunBy(Now(), Bounds(), input.data, input.mode, input.bitOffset, contents, eventIndex, encodedLength * 8 + 1)
               == RunBy(old(Now()), Bounds(), input.data, input.mode, old(input.bitOffset), contents, 0, encodedLength * 8 + 1)
      {
        status := Step(input, contents(eventIndex));
        if status != Success || finished {
          return;
        }
      }
      status := InvalidNetworkResponse;
    }
  }

  /** The grammars offer the end of an element only while one is open. */
  lemma EndsOpen(frames: seq<Frame>, d: Decoded, depth: nat)
    requires FramesOk(frames, depth) && frames != [] && frames[|frames| - 1].state.grammars != []
    requires Offered(TopOf(frames[|frames| - 1].state.grammars).kind, d) && d.production.event == EndElement
    ensures depth > 0
  {
    hide FramesOk; hide StackOk; hide TablesOk; hide Offered; hide Transition;
    TopHeight(frames, depth);
    TransitionOk(frames[|frames| - 1].state.grammars, d, NO_NAME);
  }

  lemma NotEmpty(frames: seq<Frame>, depth: nat)
    requires FramesOk(frames, depth)
    ensures frames != []
  {
  }

  lemma LearnKinds(kind: GrammarKind, d: Decoded)
    requires Offered(kind, d) && d.learn && d.production.event in {StartElement, EndElement, Attribute, Characters}
    ensures kind in {FragmentContent, StartTagContent, ElementContent}
  {
  }

  lemma SameHeight(f: Frame, f': Frame, outermost: bool, depth: nat)
    requires HeightOk(f, outermost, depth) && f'.(state := f.state) == f && f'.state.grammars == f.state.grammars
    ensures HeightOk(f', outermost, depth)
  {
  }
}
