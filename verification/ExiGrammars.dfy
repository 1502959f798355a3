// Learned productions and dynamic event codes (Efficient XML Interchange 1.0, sections 6.2 and 8.4.3): the
// flat table is a list per owner and grammar, newest first, and event codes index it.
module ExiGrammars {
  import opened Common
  import opened ExiBits

  datatype GrammarKind =
    | Document | Fragment | FragmentContent | DocContent | DocumentEnd | ElementContent | StartTagContent
    | SchemaSimpleTypeContent | SchemaSimpleTypeEnd

  datatype EventKind =
    | StartDocument | EndDocument | StartElement | EndElement | Attribute | NamespaceDeclaration | Characters | Comment
    | ProcessingInstruction | Dtd | EntityReference | SelfContained

  datatype Options = Options(
    preserveComments: bool, preservePis: bool, preserveDtd: bool, preservePrefixes: bool, selfContained: bool)

  const NO_NAME: nat := 0xffff_ffff

  /** What an event does to the grammar stack. */
  datatype Production = Production(event: EventKind, next: GrammarKind, push: bool, pop: bool)

  datatype Learned = Learned(owner: nat, grammar: GrammarKind, event: EventKind, qname: nat, production: Production)

  /** An event as decoded: its effect, its name if already known, whether a name follows, whether it is learned. */
  datatype Decoded = Decoded(production: Production, qname: nat := NO_NAME, qnameEncoded: bool := false, learn: bool := false)

  //
  // The table
  //

  predicate Belongs(p: Learned, owner: nat, grammar: GrammarKind) {
    p.owner == owner && p.grammar == grammar
  }

  predicate SameKey(p: Learned, q: Learned) {
    Belongs(p, q.owner, q.grammar) && p.event == q.event && p.qname == q.qname
  }

  /** The productions of one owner and grammar, newest first. */
  function Listed(ps: seq<Learned>, owner: nat, grammar: GrammarKind): seq<Learned> {
    if |ps| == 0 then []
    else
      var rest := Listed(ps[..|ps| - 1], owner, grammar);
      if Belongs(ps[|ps| - 1], owner, grammar) then [ps[|ps| - 1]] + rest else rest
  }

  /** No production is stored twice. */
  predicate Distinct(ps: seq<Learned>) {
    forall i, j :: 0 <= i < j < |ps| ==> !SameKey(ps[i], ps[j])
  }

  /** A new production takes the first place of its own list and leaves all other lists alone. */
  lemma LearnPrepends(ps: seq<Learned>, p: Learned, owner: nat, grammar: GrammarKind)
    ensures Listed(ps + [p], owner, grammar) ==
              (if Belongs(p, owner, grammar) then [p] else []) + Listed(ps, owner, grammar)
  {
    assert (ps + [p])[..|ps|] == ps;
  }

  lemma {:induction false} ListedBelong(ps: seq<Learned>, owner: nat, grammar: GrammarKind)
    ensures forall k :: 0 <= k < |Listed(ps, owner, grammar)| ==>
              Belongs(Listed(ps, owner, grammar)[k], owner, grammar) && Listed(ps, owner, grammar)[k] in ps
    ensures |Listed(ps, owner, grammar)| <= |ps|
  {
    if |ps| > 0 {
      ListedBelong(ps[..|ps| - 1], owner, grammar);
      forall q | q in ps[..|ps| - 1] ensures q in ps {}
    }
  }

  /** A list has no production twice, so an event code stands for one production only. */
  lemma {:induction false} ListedDistinct(ps: seq<Learned>, owner: nat, grammar: GrammarKind)
    requires Distinct(ps)
    ensures Distinct(Listed(ps, owner, grammar))
  {
    if |ps| > 0 {
      var init := ps[..|ps| - 1];
      var last := ps[|ps| - 1];
      assert Distinct(init);
      ListedDistinct(init, owner, grammar);
      ListedBelong(init, owner, grammar);
      forall q | q in init
        ensures !SameKey(last, q)
      {
        var i :| 0 <= i < |init| && init[i] == q;
        assert !SameKey(ps[i], ps[|ps| - 1]);
      }
    }
  }

  class GrammarTable {
    const maxProductions: nat
    var productions: seq<Learned>

    constructor (limit: nat)
      ensures productions == [] && maxProductions == limit && Valid()
    {
      maxProductions, productions := limit, [];
    }

    ghost predicate Valid()
      reads this
    {
      Distinct(productions) && |productions| <= maxProductions
    }

    method Find(p: Learned) returns (found: bool, index: nat)
      ensures found <==> exists i :: 0 <= i < |productions| && SameKey(productions[i], p)
      ensures found ==> index < |productions| && SameKey(productions[index], p)
    {
      for i := 0 to |productions|
        invariant forall k :: 0 <= k < i ==> !SameKey(productions[k], p)
      {
        if SameKey(productions[i], p) {
          return true, i;
        }
      }
      found, index := false, 0;
    }

    /** Store a production unless one with its owner, grammar, event and name is there. */
    method Learn(p: Learned) returns (status: Status, index: nat)
      requires Valid()
      modifies this
      ensures Valid()
      ensures (exists i :: 0 <= i < |old(productions)| && SameKey(old(productions)[i], p)) ==>
                status == Success && productions == old(productions)
      ensures !(exists i :: 0 <= i < |old(productions)| && SameKey(old(productions)[i], p)) ==>
                if |old(productions)| < maxProductions then status == Success && productions == old(productions) + [p]
                else status == BufferTooSmall && productions == old(productions)
      ensures status == Success ==> index < |productions| && SameKey(productions[index], p)
    {
      var found;
      found, index := Find(p);
      if found {
        return Success, index;
      }
      if |productions| >= maxProductions {
        return BufferTooSmall, index;
      }
      index := |productions|;
      productions := productions + [p];
      status := Success;
    }

    method Count(owner: nat, grammar: GrammarKind) returns (count: nat)
      ensures count == |Listed(productions, owner, grammar)|
    {
      count := 0;
      for index := 0 to |productions|
        invariant count == |Listed(productions[..index], owner, grammar)|
      {
        assert productions[..index + 1][..index] == productions[..index];
        if Belongs(productions[index], owner, grammar) {
          count := count + 1;
        }
      }
      assert productions[..|productions|] == productions;
    }

    /** Event code e is the e-th newest production of its owner and grammar. */
    method GetByEventCode(owner: nat, grammar: GrammarKind, eventCode: nat) returns (ok: bool, p: Learned)
      ensures ok <==> eventCode < |Listed(productions, owner, grammar)|
      ensures ok ==> p == Listed(productions, owner, grammar)[eventCode]
    {
      p := Learned(owner, grammar, StartElement, NO_NAME, Production(StartElement, grammar, false, false));
      var matchingCount := Count(owner, grammar);
      if eventCode >= matchingCount {
        return false, p;
      }
      var ordinal := matchingCount - eventCode - 1;
      assert productions[..|productions|] == productions;
      for index := 0 to |productions|
        invariant 0 <= ordinal && ordinal + |Listed(productions[..index], owner, grammar)| == matchingCount - eventCode - 1
      {
        assert productions[..index + 1][..index] == productions[..index];
        if Belongs(productions[index], owner, grammar) {
          if ordinal == 0 {
            ListedAt(productions, index, owner, grammar);
            return true, productions[index];
          }
          ordinal := ordinal - 1;
        }
      }
      assert false;
    }
  }

  /** Counted from the end of its list, a production's place is the number of older ones. */
  lemma {:induction false} ListedAt(ps: seq<Learned>, index: nat, owner: nat, grammar: GrammarKind)
    requires index < |ps| && Belongs(ps[index], owner, grammar)
    ensures var older := |Listed(ps[..index], owner, grammar)|;
      older < |Listed(ps, owner, grammar)|
      && Listed(ps, owner, grammar)[|Listed(ps, owner, grammar)| - 1 - older] == ps[index]
    decreases |ps|
  {
    var init := ps[..|ps| - 1];
    if index < |ps| - 1 {
      assert init[..index] == ps[..index];
      ListedAt(init, index, owner, grammar);
    } else {
      assert ps[..index] == init;
    }
  }

  //
  // Event codes
  //

  /** What learning an event of a grammar stores. */
  function ProductionFor(grammar: GrammarKind, event: EventKind): Production {
    match event
    case StartElement => Production(event, if grammar == FragmentContent then FragmentContent else ElementContent, true, false)
    case Characters => Production(event, ElementContent, false, false)
    case EndElement => Production(event, grammar, false, true)
    case _ => Production(event, StartTagContent, false, false)
  }

  function One(b: bool): nat {
    if b then 1 else 0
  }

  predicate HasThird(o: Options) {
    o.preserveComments || o.preservePis
  }

  function FirstCount(grammar: GrammarKind, learned: nat): nat {
    learned + One(grammar == ElementContent) + 1
  }

  function SecondCount(grammar: GrammarKind, o: Options): nat {
    if grammar == StartTagContent
    then 4 + One(o.preservePrefixes) + One(o.selfContained) + One(o.preserveDtd) + One(HasThird(o))
    else 2 + One(o.preserveDtd) + One(HasThird(o))
  }

  function ThirdCount(o: Options): nat {
    One(o.preserveComments) + One(o.preservePis)
  }

  /** The events of the second level that are tried in order; None is the way to the third level. */
  function SecondLevel(grammar: GrammarKind, o: Options): seq<Option<EventKind>> {
    (if grammar == StartTagContent then
       [Some(EndElement), Some(Attribute)] + (if o.preservePrefixes then [Some(NamespaceDeclaration)] else [])
         + (if o.selfContained then [Some(SelfContained)] else [])
     else [])
    + [Some(StartElement), Some(Characters)] + (if o.preserveDtd then [Some(EntityReference)] else [])
    + (if HasThird(o) then [None] else [])
  }

  lemma SecondLevelSize(grammar: GrammarKind, o: Options)
    ensures |SecondLevel(grammar, o)| == SecondCount(grammar, o)
  {
  }

  /** A built-in event of an element grammar as it is decoded. */
  function BuiltIn(grammar: GrammarKind, event: EventKind): Decoded {
    match event
    case EndElement => Decoded(Production(event, grammar, false, true), learn := grammar == StartTagContent)
    case Attribute => Decoded(Production(event, StartTagContent, false, false), qnameEncoded := true, learn := true)
    case NamespaceDeclaration => Decoded(Production(event, StartTagContent, false, false))
    case SelfContained => Decoded(Production(event, StartTagContent, false, false))
    case StartElement => Decoded(Production(event, ElementContent, true, false), qnameEncoded := true, learn := true)
    case Characters => Decoded(Production(event, ElementContent, false, false), learn := true)
    case _ => Decoded(Production(event, ElementContent, false, false))
  }

  /** The event with a given second-level code, reading the third level where needed. */
  function SecondEvent(data: seq<byte>, mode: InputMode, pos: nat, grammar: GrammarKind, o: Options,
                       second: nat): Option<(Decoded, nat)> {
    if second >= |SecondLevel(grammar, o)| then None
    else
      match SecondLevel(grammar, o)[second]
      case Some(event) => Some((BuiltIn(grammar, event), pos))
      case None =>
        match ChoiceRead(data, mode, pos, ThirdCount(o))
        case None => None
        case Some(third) =>
          Some((BuiltIn(grammar, if o.preserveComments && third.0 == 0 then Comment else ProcessingInstruction), third.1))
  }

  /** Read the event code of an element grammar. */
  function ElementEvent(data: seq<byte>, mode: InputMode, pos: nat, grammar: GrammarKind, listed: seq<Learned>, o: Options)
    : Option<(Decoded, nat)>
  {
    match ChoiceRead(data, mode, pos, FirstCount(grammar, |listed|))
    case None => None
    case Some(first) =>
      if first.0 < |listed| then Some((Decoded(listed[first.0].production, qname := listed[first.0].qname), first.1))
      else if grammar == ElementContent && first.0 == |listed| then Some((BuiltIn(grammar, EndElement), first.1))
      else
        match ChoiceRead(data, mode, first.1, SecondCount(grammar, o))
        case None => None
        case Some(second) => SecondEvent(data, mode, second.1, grammar, o, second.0)
  }

  /** What an encoder wants to say: a production of the list, or a built-in event. */
  datatype Target = FromList(code: nat) | Built(event: EventKind)

  function IndexOf(events: seq<Option<EventKind>>, event: Option<EventKind>): (r: nat)
    ensures r <= |events| && (r < |events| ==> events[r] == event)
    ensures r == |events| ==> event !in events
  {
    if |events| == 0 || events[0] == event then 0 else 1 + IndexOf(events[1..], event)
  }

  /** The event is among those the grammar offers under the options. */
  predicate Sayable(grammar: GrammarKind, listed: seq<Learned>, o: Options, t: Target) {
    match t
    case FromList(code) => code < |listed|
    case Built(event) =>
      || (grammar == ElementContent && event == EndElement)
      || Some(event) in SecondLevel(grammar, o)
      || (event == Comment && o.preserveComments) || (event == ProcessingInstruction && o.preservePis)
  }

  /** The event code an encoder that keeps the same list writes. */
  function CodeWritten(mode: InputMode, grammar: GrammarKind, listed: seq<Learned>, o: Options, t: Target): seq<bool> {
    var n := |listed|;
    var levels := SecondLevel(grammar, o);
    match t
    case FromList(code) => ChoiceWritten(mode, code, FirstCount(grammar, n))
    case Built(event) =>
      if grammar == ElementContent && event == EndElement then ChoiceWritten(mode, n, FirstCount(grammar, n))
      else
        ChoiceWritten(mode, FirstCount(grammar, n) - 1, FirstCount(grammar, n)) +
        (if event == Comment || event == ProcessingInstruction then
           ChoiceWritten(mode, IndexOf(levels, None), SecondCount(grammar, o))
             + ChoiceWritten(mode, if event == Comment then 0 else One(o.preserveComments), ThirdCount(o))
         else ChoiceWritten(mode, IndexOf(levels, Some(event)), SecondCount(grammar, o)))
  }

  function Meaning(grammar: GrammarKind, listed: seq<Learned>, t: Target): Decoded
    requires t.FromList? ==> t.code < |listed|
  {
    match t
    case FromList(code) => Decoded(listed[code].production, qname := listed[code].qname)
    case Built(event) => BuiltIn(grammar, event)
  }

  predicate AlignedFor(mode: InputMode, pos: nat) {
    mode == ByteAligned ==> pos % 8 == 0
  }

  /** Reading the event code an encoder with the same list wrote gives back what it said. */
  lemma EventCodeInverts(data: seq<byte>, mode: InputMode, pos: nat, grammar: GrammarKind, listed: seq<Learned>, o: Options, t: Target)
    requires (grammar == StartTagContent || grammar == ElementContent) && FirstCount(grammar, |listed|) <= 0x8000_0000
    requires Sayable(grammar, listed, o, t) && AlignedFor(mode, pos) && Stand(data, pos, CodeWritten(mode, grammar, listed, o, t))
    ensures ElementEvent(data, mode, pos, grammar, listed, o)
         == Some((Meaning(grammar, listed, t), pos + |CodeWritten(mode, grammar, listed, o, t)|))
  {
    hide ChoiceRead; hide ChoiceWritten; hide Stand; hide SecondLevel; hide BuiltIn; hide SecondEvent;
    var n := |listed|;
    var count := FirstCount(grammar, n);
    SecondLevelSize(grammar, o);
    match t
    case FromList(code) =>
      ChoiceInverts(data, mode, pos, code, count);
    case Built(event) =>
      if grammar == ElementContent && event == EndElement {
        ChoiceInverts(data, mode, pos, n, count);
      } else {
        var head := ChoiceWritten(mode, count - 1, count);
        var whole := CodeWritten(mode, grammar, listed, o, t);
        var tail := whole[|head|..];
        assert whole == head + tail;
        StandSplit(data, pos, head, tail);
        ChoiceInverts(data, mode, pos, count - 1, count);
        SecondInverts(data, mode, pos + |head|, grammar, o, event);
      }
  }

  /** The second and third level. */
  function SecondWritten(mode: InputMode, grammar: GrammarKind, o: Options, event: EventKind): seq<bool> {
    var levels := SecondLevel(grammar, o);
    if event == Comment || event == ProcessingInstruction then
      ChoiceWritten(mode, IndexOf(levels, None), SecondCount(grammar, o))
        + ChoiceWritten(mode, if event == Comment then 0 else One(o.preserveComments), ThirdCount(o))
    else ChoiceWritten(mode, IndexOf(levels, Some(event)), SecondCount(grammar, o))
  }

  lemma ThirdInverts(data: seq<byte>, mode: InputMode, pos: nat, grammar: GrammarKind, o: Options, event: EventKind)
    requires (event == Comment && o.preserveComments) || (event == ProcessingInstruction && o.preservePis)
    requires AlignedFor(mode, pos) && Stand(data, pos, SecondWritten(mode, grammar, o, event))
    ensures ChoiceRead(data, mode, pos, SecondCount(grammar, o)).Some?
    ensures var second := ChoiceRead(data, mode, pos, SecondCount(grammar, o)).value;
      SecondEvent(data, mode, second.1, grammar, o, second.0)
        == Some((BuiltIn(grammar, event), pos + |SecondWritten(mode, grammar, o, event)|))
  {
    hide ChoiceRead; hide ChoiceWritten; hide Stand; hide BuiltIn; hide SecondLevel;
    SecondLevelSize(grammar, o);
    var levels := SecondLevel(grammar, o);
    assert None in levels by { ThirdOffered(grammar, o); }
    var i := IndexOf(levels, None);
    var head := ChoiceWritten(mode, i, SecondCount(grammar, o));
    var third := if event == Comment then 0 else One(o.preserveComments);
    StandSplit(data, pos, head, ChoiceWritten(mode, third, ThirdCount(o)));
    ChoiceInverts(data, mode, pos, i, SecondCount(grammar, o));
    ChoiceInverts(data, mode, pos + |head|, third, ThirdCount(o));
  }

  lemma ThirdOffered(grammar: GrammarKind, o: Options)
    requires HasThird(o)
    ensures None in SecondLevel(grammar, o)
  {
    assert SecondLevel(grammar, o)[|SecondLevel(grammar, o)| - 1] == None;
  }

  lemma SecondInverts(data: seq<byte>, mode: InputMode, pos: nat, grammar: GrammarKind, o: Options, event: EventKind)
    requires grammar == StartTagContent || grammar == ElementContent
    requires Some(event) in SecondLevel(grammar, o) || (event == Comment && o.preserveComments)
             || (event == ProcessingInstruction && o.preservePis)
    requires AlignedFor(mode, pos) && Stand(data, pos, SecondWritten(mode, grammar, o, event))
    ensures ChoiceRead(data, mode, pos, SecondCount(grammar, o)).Some?
    ensures var second := ChoiceRead(data, mode, pos, SecondCount(grammar, o)).value;
      SecondEvent(data, mode, second.1, grammar, o, second.0)
        == Some((BuiltIn(grammar, event), pos + |SecondWritten(mode, grammar, o, event)|))
  {
    hide ChoiceRead; hide ChoiceWritten; hide Stand; hide BuiltIn;
    SecondLevelSize(grammar, o);
    var levels := SecondLevel(grammar, o);
    if event == Comment || event == ProcessingInstruction {
      ThirdInverts(data, mode, pos, grammar, o, event);
    } else {
      var i := IndexOf(levels, Some(event));
      ChoiceInverts(data, mode, pos, i, SecondCount(grammar, o));
    }
  }

  /** First the learned productions and the built-in ones are told apart, then each level is counted off with a cursor. */
  method ReadElementEventCode(input: ExiInput, table: GrammarTable, grammar: GrammarKind, owner: nat, o: Options)
    returns (ok: bool, decoded: Decoded)
    requires input.Valid() && (grammar == StartTagContent || grammar == ElementContent)
    modifies input
    ensures input.Valid()
    ensures var read := ElementEvent(input.data, input.mode, old(input.bitOffset), grammar, Listed(table.productions, owner, grammar), o);
      (ok <==> read.Some?) && (ok ==> read == Some((decoded, input.bitOffset)))
  {
    hide ChoiceRead; hide SecondEvent; hide BuiltIn; hide Listed;
    decoded := BuiltIn(grammar, EndElement);
    var learnedCount := table.Count(owner, grammar);
    var first;
    ok, first := ReadChoice(input, learnedCount + One(grammar == ElementContent) + 1);
    if !ok {
      return;
    }
    if first < learnedCount {
      var learned;
      ok, learned := table.GetByEventCode(owner, grammar, first);
      decoded := Decoded(learned.production, qname := learned.qname);
      return;
    }
    if grammar == ElementContent && first == learnedCount {
      return;
    }
    var second;
    ok, second := ReadChoice(input, SecondCount(grammar, o));
    if !ok {
      return;
    }
    ok, decoded := ReadSecondLevel(input, grammar, o, second);
  }

  method ReadSecondLevel(input: ExiInput, grammar: GrammarKind, o: Options, second: nat) returns (ok: bool, decoded: Decoded)
    requires input.Valid() && (grammar == StartTagContent || grammar == ElementContent)
    modifies input
    ensures input.Valid()
    ensures var read := SecondEvent(input.data, input.mode, old(input.bitOffset), grammar, o, second);
      (ok <==> read.Some?) && (ok ==> read == Some((decoded, input.bitOffset)))
  {
    hide ChoiceRead; hide BuiltIn;
    var cursor := 0;
    if grammar == StartTagContent {
      if second == cursor {
        return true, BuiltIn(grammar, EndElement);
      }
      cursor := cursor + 1;
      if second == cursor {
        return true, BuiltIn(grammar, Attribute);
      }
      cursor := cursor + 1;
      if o.preservePrefixes {
        if second == cursor {
          return true, BuiltIn(grammar, NamespaceDeclaration);
        }
        cursor := cursor + 1;
      }
      if o.selfContained {
        if second == cursor {
          return true, BuiltIn(grammar, SelfContained);
        }
        cursor := cursor + 1;
      }
    }
    if second == cursor {
      return true, BuiltIn(grammar, StartElement);
    }
    cursor := cursor + 1;
    if second == cursor {
      return true, BuiltIn(grammar, Characters);
    }
    cursor := cursor + 1;
    if o.preserveDtd {
      if second == cursor {
        return true, BuiltIn(grammar, EntityReference);
      }
      cursor := cursor + 1;
    }
    decoded := BuiltIn(grammar, Comment);
    if !HasThird(o) || second != cursor {
      return false, decoded;
    }
    var third;
    ok, third := ReadChoice(input, ThirdCount(o));
    if ok && !(o.preserveComments && third == 0) {
      decoded := BuiltIn(grammar, ProcessingInstruction);
    }
  }
}
