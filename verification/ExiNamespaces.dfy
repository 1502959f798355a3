// The XML event sink's namespace scoping (Namespaces in XML 1.0, section 6.1) when prefixes are not
// preserved: generated prefixes, the bindings of the open elements, and what a reader of the written
// XML finds in scope.
module ExiNamespaces {
  import opened Common
  import opened Decimal

  type Text = seq<byte>
  datatype Name = Name(uri: Text, local: Text, prefix: Text)
  datatype Binding = Binding(prefix: Text, uri: Text, depth: nat)

  /** The calls the XML writer receives; their effect on the output text is not part of this model. */
  datatype Call =
    | WriteStart(name: Name) | WriteNamespace(prefix: Text, uri: Text) | WriteAttribute(name: Name)
    | WriteQNameAttribute(name: Name, value: Name) | WriteEnd(name: Name) | WriteContent

  /** "http://www.w3.org/XML/1998/namespace" and "xml". */
  const XML_URI: Text := [
    0x68, 0x74, 0x74, 0x70, 0x3a, 0x2f, 0x2f, 0x77, 0x77, 0x77, 0x2e, 0x77, 0x33, 0x2e, 0x6f, 0x72, 0x67, 0x2f, 0x58, 0x4d,
    0x4c, 0x2f, 0x31, 0x39, 0x39, 0x38, 0x2f, 0x6e, 0x61, 0x6d, 0x65, 0x73, 0x70, 0x61, 0x63, 0x65]
  const XML_PREFIX: Text := [0x78, 0x6d, 0x6c]

  //
  // What a reader of the calls has in scope
  //

  /** The elements open and the bindings declared on them. */
  datatype Scope = Scope(open: nat, bindings: seq<Binding>)

  /** The bindings of elements less deep than d. */
  function Below(bindings: seq<Binding>, d: nat): seq<Binding> {
    if |bindings| == 0 then []
    else
      var rest := Below(bindings[..|bindings| - 1], d);
      if bindings[|bindings| - 1].depth < d then rest + [bindings[|bindings| - 1]] else rest
  }

  function ScopeOf(calls: seq<Call>): Scope {
    if |calls| == 0 then Scope(0, [])
    else
      var s := ScopeOf(calls[..|calls| - 1]);
      match calls[|calls| - 1]
      case WriteStart(_) => Scope(s.open + 1, s.bindings)
      case WriteNamespace(prefix, uri) => if s.open == 0 then s else Scope(s.open, s.bindings + [Binding(prefix, uri, s.open - 1)])
      case WriteEnd(_) => if s.open == 0 then s else Scope(s.open - 1, Below(s.bindings, s.open - 1))
      case _ => s
  }

  /** The name's prefix is bound to its URI, or it needs no binding. */
  predicate Resolves(s: Scope, name: Name) {
    if name.uri == [] then name.prefix == []
    else if name.uri == XML_URI then name.prefix == XML_PREFIX
    else InScope(s, name.prefix, name.uri)
  }

  predicate InScope(s: Scope, prefix: Text, uri: Text) {
    exists k :: 0 <= k < |s.bindings| && s.bindings[k].prefix == prefix && s.bindings[k].uri == uri
  }

  predicate Declared(s: Scope, prefix: Text) {
    exists k :: 0 <= k < |s.bindings| && s.bindings[k].prefix == prefix
  }

  /** No prefix in scope is bound twice, so that what a prefix means is never ambiguous. */
  predicate Unambiguous(s: Scope) {
    forall i, j :: 0 <= i < j < |s.bindings| ==> s.bindings[i].prefix != s.bindings[j].prefix
  }

  /** What must hold of call k for a namespace-aware reader to see the right names. */
  predicate CallOk(calls: seq<Call>, k: nat)
    requires k < |calls|
  {
    var s := ScopeOf(calls[..k]);
    match calls[k]
    case WriteStart(name) =>
      // the start tag may declare the element's own prefix
      Resolves(s, name) || (k + 1 < |calls| && calls[k + 1] == WriteNamespace(name.prefix, name.uri))
    case WriteAttribute(name) => Resolves(s, name)
    case WriteQNameAttribute(name, value) => Resolves(s, name) && Resolves(s, value)
    case WriteNamespace(prefix, uri) => !Declared(s, prefix) && prefix != XML_PREFIX && s.open > 0
    case WriteEnd(_) => s.open > 0
    case WriteContent => true
  }

  ghost predicate CallsOk(calls: seq<Call>) {
    && (forall k: nat :: k < |calls| ==> CallOk(calls, k))
    && Unambiguous(ScopeOf(calls))
  }

  lemma ScopeNext(calls: seq<Call>, c: Call)
    ensures ScopeOf(calls + [c]) ==
              var s := ScopeOf(calls);
              match c
              case WriteStart(_) => Scope(s.open + 1, s.bindings)
              case WriteNamespace(prefix, uri) =>
                if s.open == 0 then s else Scope(s.open, s.bindings + [Binding(prefix, uri, s.open - 1)])
              case WriteEnd(_) => if s.open == 0 then s else Scope(s.open - 1, Below(s.bindings, s.open - 1))
              case _ => s
  {
    assert (calls + [c])[..|calls|] == calls;
  }

  /** Earlier calls stay right when calls are added. */
  lemma CallsStay(calls: seq<Call>, more: seq<Call>, k: nat)
    requires k < |calls| && CallOk(calls, k)
    ensures CallOk(calls + more, k)
  {
    assert (calls + more)[..k] == calls[..k];
  }

  /** The start tags still open; None when an end tag differs from its start tag. */
  function OpenTags(calls: seq<Call>): Option<seq<Name>> {
    if |calls| == 0 then Some([])
    else
      match OpenTags(calls[..|calls| - 1])
      case None => None
      case Some(open) =>
        match calls[|calls| - 1]
        case WriteStart(name) => Some(open + [name])
        case WriteEnd(name) => if |open| > 0 && open[|open| - 1] == name then Some(open[..|open| - 1]) else None
        case _ => Some(open)
  }

  lemma TagsNext(calls: seq<Call>, c: Call, open: seq<Name>)
    requires OpenTags(calls) == Some(open)
    ensures OpenTags(calls + [c]) ==
              match c
              case WriteStart(name) => Some(open + [name])
              case WriteEnd(name) => if |open| > 0 && open[|open| - 1] == name then Some(open[..|open| - 1]) else None
              case _ => Some(open)
  {
    assert (calls + [c])[..|calls|] == calls;
  }

  lemma TagsOfTwo(calls: seq<Call>, a: Call, b: Call, open: seq<Name>)
    requires OpenTags(calls) == Some(open) && a.WriteStart? && b.WriteNamespace?
    ensures OpenTags(calls + [a, b]) == Some(open + [a.name])
  {
    TagsNext(calls, a, open);
    TagsNext(calls + [a], b, open + [a.name]);
    assert (calls + [a]) + [b] == calls + [a, b];
  }

  //
  // Generated prefixes
  //

  /** "ns" and the number of prefixes generated before. */
  function Generated(n: nat): Text {
    [0x6e, 0x73] + Numeral(n)
  }

  lemma GeneratedDiffer(a: nat, b: nat)
    requires Generated(a) == Generated(b)
    ensures a == b
  {
    assert Generated(a)[2..] == Numeral(a) && Generated(b)[2..] == Numeral(b);
    NumeralsDiffer(a, b);
  }

  lemma GeneratedNotXml(n: nat)
    ensures Generated(n) != XML_PREFIX && Generated(n) != []
  {
    assert Generated(n)[0] == 0x6e;
  }

  /** Entry i is the i-th generated prefix, and no URI has two. */
  ghost predicate GeneratedOk(generated: seq<(Text, Text)>) {
    && (forall i :: 0 <= i < |generated| ==> generated[i].0 == Generated(i))
    && (forall i, j :: 0 <= i < j < |generated| ==> generated[i].1 != generated[j].1)
  }

  /** Prefixes and URIs that were generated together are in bijection. */
  lemma GeneratedBijection(generated: seq<(Text, Text)>, i: nat, j: nat)
    requires GeneratedOk(generated) && i < |generated| && j < |generated|
    ensures generated[i].0 == generated[j].0 <==> generated[i].1 == generated[j].1
  {
    if generated[i].0 == generated[j].0 { GeneratedDiffer(i, j); }
  }

  //
  // The sink
  //

  /** Every active binding was generated, deeper elements' bindings come later, and all belong to open elements. */
  ghost predicate ActiveOk(active: seq<Binding>, generated: seq<(Text, Text)>, open: nat) {
    && (forall k :: 0 <= k < |active| ==> FromGenerated(active[k], generated) && active[k].depth < open)
    && (forall i, j :: 0 <= i < j < |active| ==> active[i].depth <= active[j].depth)
  }

  predicate FromGenerated(b: Binding, generated: seq<(Text, Text)>) {
    exists i :: 0 <= i < |generated| && generated[i] == (b.prefix, b.uri)
  }

  /** The sink's own books agree with what a reader of its calls has in scope. */
  ghost predicate SinkOk(calls: seq<Call>, active: seq<Binding>, generated: seq<(Text, Text)>, open: nat) {
    && CallsOk(calls) && ScopeOf(calls) == Scope(open, active)
    && GeneratedOk(generated) && ActiveOk(active, generated, open)
  }

  lemma MoreGenerated(active: seq<Binding>, generated: seq<(Text, Text)>, e: (Text, Text), open: nat)
    requires ActiveOk(active, generated, open)
    ensures ActiveOk(active, generated + [e], open)
  {
    forall k | 0 <= k < |active|
      ensures FromGenerated(active[k], generated + [e])
    {
      assert FromGenerated(active[k], generated);
      var i :| 0 <= i < |generated| && generated[i] == (active[k].prefix, active[k].uri);
      assert (generated + [e])[i] == generated[i];
    }
  }

  lemma NewGenerated(generated: seq<(Text, Text)>, uri: Text)
    requires GeneratedOk(generated) && forall i :: 0 <= i < |generated| ==> generated[i].1 != uri
    ensures GeneratedOk(generated + [(Generated(|generated|), uri)])
  {
  }

  /** A prefix generated for a URI that is not in scope is not in scope either. */
  lemma NotDeclared(active: seq<Binding>, generated: seq<(Text, Text)>, open: nat, i: nat)
    requires GeneratedOk(generated) && ActiveOk(active, generated, open) && i < |generated|
    requires forall k :: 0 <= k < |active| ==> active[k].uri != generated[i].1
    ensures !Declared(Scope(open, active), generated[i].0)
  {
    forall k | 0 <= k < |active|
      ensures active[k].prefix != generated[i].0
    {
      assert FromGenerated(active[k], generated);
      var j :| 0 <= j < |generated| && generated[j] == (active[k].prefix, active[k].uri);
      GeneratedBijection(generated, i, j);
    }
  }

  /** A call that declares nothing and opens or closes nothing. */
  lemma AddCall(calls: seq<Call>, c: Call, active: seq<Binding>, generated: seq<(Text, Text)>, open: nat)
    requires SinkOk(calls, active, generated, open)
    requires match c
             case WriteAttribute(name) => Resolves(Scope(open, active), name)
             case WriteQNameAttribute(name, value) => Resolves(Scope(open, active), name) && Resolves(Scope(open, active), value)
             case WriteContent => true
             case _ => false
    ensures SinkOk(calls + [c], active, generated, open)
  {
    hide GeneratedOk; hide ActiveOk; hide Resolves;
    ScopeNext(calls, c);
    CallsAdd(calls, c);
  }

  lemma CallsAdd(calls: seq<Call>, c: Call)
    requires forall k: nat :: k < |calls| ==> CallOk(calls, k)
    requires CallOk(calls + [c], |calls|)
    ensures forall k: nat :: k < |calls + [c]| ==> CallOk(calls + [c], k)
  {
    hide CallOk;
    forall k: nat | k < |calls|
      ensures CallOk(calls + [c], k)
    {
      CallsStay(calls, [c], k);
    }
  }

  /** Declaring a fresh prefix on the innermost element. */
  lemma AddNamespace(calls: seq<Call>, prefix: Text, uri: Text, active: seq<Binding>, generated: seq<(Text, Text)>, open: nat)
    requires SinkOk(calls, active, generated, open) && open > 0
    requires !Declared(Scope(open, active), prefix) && prefix != XML_PREFIX
    requires FromGenerated(Binding(prefix, uri, open - 1), generated)
    ensures SinkOk(calls + [WriteNamespace(prefix, uri)], active + [Binding(prefix, uri, open - 1)], generated, open)
  {
    hide GeneratedOk;
    var c := WriteNamespace(prefix, uri);
    ScopeNext(calls, c);
    assert (calls + [c])[..|calls|] == calls;
    CallsAdd(calls, c);
    var more := active + [Binding(prefix, uri, open - 1)];
    forall i, j | 0 <= i < j < |more|
      ensures more[i].prefix != more[j].prefix && more[i].depth <= more[j].depth
    {
      if j < |active| { assert active[i].prefix != active[j].prefix by { assert Unambiguous(ScopeOf(calls)); } }
    }
    forall k | 0 <= k < |more|
      ensures FromGenerated(more[k], generated) && more[k].depth < open
    {
    }
  }

  /** Opening an element whose name resolves already. */
  lemma AddStart(calls: seq<Call>, name: Name, active: seq<Binding>, generated: seq<(Text, Text)>, open: nat)
    requires SinkOk(calls, active, generated, open) && Resolves(Scope(open, active), name)
    ensures SinkOk(calls + [WriteStart(name)], active, generated, open + 1)
  {
    hide GeneratedOk; hide Resolves;
    var c := WriteStart(name);
    ScopeNext(calls, c);
    assert (calls + [c])[..|calls|] == calls;
    CallsAdd(calls, c);
  }

  /** Opening an element that declares its own prefix. */
  lemma AddDeclaringStart(calls: seq<Call>, name: Name, active: seq<Binding>, generated: seq<(Text, Text)>, open: nat)
    requires SinkOk(calls, active, generated, open)
    requires !Declared(Scope(open, active), name.prefix) && name.prefix != XML_PREFIX
    requires FromGenerated(Binding(name.prefix, name.uri, open), generated)
    ensures SinkOk(calls + [WriteStart(name), WriteNamespace(name.prefix, name.uri)],
                   active + [Binding(name.prefix, name.uri, open)], generated, open + 1)
  {
    hide GeneratedOk; hide Resolves;
    var a, b := WriteStart(name), WriteNamespace(name.prefix, name.uri);
    var all := calls + [a, b];
    ScopeNext(calls, a);
    ScopeNext(calls + [a], b);
    assert (calls + [a]) + [b] == all;
    assert all[..|calls|] == calls && all[..|calls| + 1] == calls + [a];
    forall k: nat | k < |all|
      ensures CallOk(all, k)
    {
      if k < |calls| { CallsStay(calls, [a, b], k); }
    }
    var more := active + [Binding(name.prefix, name.uri, open)];
    forall i, j | 0 <= i < j < |more|
      ensures more[i].prefix != more[j].prefix && more[i].depth <= more[j].depth
    {
      if j < |active| { assert active[i].prefix != active[j].prefix by { assert Unambiguous(ScopeOf(calls)); } }
    }
  }

  /** Where the bindings are sorted by depth, dropping the deep ones is cutting the end off. */
  lemma {:induction false} BelowCuts(active: seq<Binding>, n: nat, d: nat)
    requires n <= |active| && forall i, j :: 0 <= i < j < |active| ==> active[i].depth <= active[j].depth
    requires n > 0 ==> active[n - 1].depth < d
    requires forall k :: n <= k < |active| ==> active[k].depth >= d
    ensures Below(active, d) == active[..n]
    decreases |active|
  {
    if |active| > 0 {
      var rest := active[..|active| - 1];
      if n < |active| {
        BelowCuts(rest, n, d);
        assert rest[..n] == active[..n];
      } else {
        BelowCuts(rest, n - 1, d);
        assert rest[..n - 1] + [active[n - 1]] == active[..n];
      }
    }
  }

  /** A closed element leaves no binding behind. */
  lemma AddEnd(calls: seq<Call>, name: Name, active: seq<Binding>, generated: seq<(Text, Text)>, open: nat, n: nat)
    requires SinkOk(calls, active, generated, open) && open > 0 && n <= |active|
    requires n > 0 ==> active[n - 1].depth < open - 1
    requires forall k :: n <= k < |active| ==> active[k].depth >= open - 1
    ensures SinkOk(calls + [WriteEnd(name)], active[..n], generated, open - 1)
  {
    hide GeneratedOk;
    var c := WriteEnd(name);
    ScopeNext(calls, c);
    assert (calls + [c])[..|calls|] == calls;
    CallsAdd(calls, c);
    BelowCuts(active, n, open - 1);
    assert Unambiguous(ScopeOf(calls));
    forall k | 0 <= k < n
      ensures FromGenerated(active[..n][k], generated) && active[..n][k].depth < open - 1
    {
      assert FromGenerated(active[k], generated);
    }
  }

  //
  // What each call does, and which calls are refused
  //

  /** Everything the sink holds. */
  datatype Sink = Sink(
    pendingName: Option<Name>, pendingNamespaces: seq<(Text, Text)>, generated: seq<(Text, Text)>,
    active: seq<Binding>, elementNames: seq<Name>, calls: seq<Call>)

  datatype Setting = Setting(preserve: bool, limit: nat)

  /** A name with its prefix, whether that has yet to be declared, and the sink, which may have generated it. */
  datatype Resolution = Resolution(name: Name, declare: bool, sink: Sink)

  /** The place of the first generated prefix of a URI, or the number of prefixes. */
  function PlaceOf(generated: seq<(Text, Text)>, uri: Text, k: nat): (r: nat)
    requires k <= |generated|
    ensures k <= r <= |generated|
    decreases |generated| - k
  {
    if k == |generated| || generated[k].1 == uri then k else PlaceOf(generated, uri, k + 1)
  }

  /** The prefix of the last active binding of a URI among the first n, if there is one. */
  function ActivePrefix(active: seq<Binding>, uri: Text, n: nat): Option<Text>
    requires n <= |active|
  {
    if n == 0 then None else if active[n - 1].uri == uri then Some(active[n - 1].prefix) else ActivePrefix(active, uri, n - 1)
  }

  /** Only a name that needs a prefix finds the table of generated ones full. */
  function ResolvedBy(S: Sink, o: Setting, name: Name): Option<Resolution> {
    if o.preserve || name.uri == [] || name.prefix != [] then Some(Resolution(name, false, S))
    else if name.uri == XML_URI then Some(Resolution(name.(prefix := XML_PREFIX), false, S))
    else
      match ActivePrefix(S.active, name.uri, |S.active|)
      case Some(prefix) => Some(Resolution(name.(prefix := prefix), false, S))
      case None =>
        if |S.generated| >= o.limit then None
        else
          var i := PlaceOf(S.generated, name.uri, 0);
          if i < |S.generated| then Some(Resolution(name.(prefix := S.generated[i].0), true, S))
          else
            var prefix := Generated(|S.generated|);
            Some(Resolution(name.(prefix := prefix), true, S.(generated := S.generated + [(prefix, name.uri)])))
  }

  lemma {:induction false} ActiveExactly(active: seq<Binding>, uri: Text, n: nat)
    requires n <= |active|
    ensures ActivePrefix(active, uri, n).None? <==> forall k :: 0 <= k < n ==> active[k].uri != uri
  {
    if n > 0 { ActiveExactly(active, uri, n - 1); }
  }

  /** A name is refused exactly when it needs a prefix that is neither active nor fits the full table. */
  lemma ResolvedExactly(S: Sink, o: Setting, name: Name)
    ensures ResolvedBy(S, o, name).None? <==>
              && !o.preserve && name.uri != [] && name.prefix == [] && name.uri != XML_URI
              && (forall k :: 0 <= k < |S.active| ==> S.active[k].uri != name.uri) && |S.generated| >= o.limit
  {
    hide XML_URI; hide XML_PREFIX; hide Generated; hide PlaceOf;
    ActiveExactly(S.active, name.uri, |S.active|);
  }

  function NamespacesOf(pending: seq<(Text, Text)>, n: nat, depth: nat): (r: (seq<Call>, seq<Binding>))
    requires n <= |pending|
    ensures |r.0| == |r.1| == n
  {
    if n == 0 then ([], [])
    else
      var before := NamespacesOf(pending, n - 1, depth);
      (before.0 + [WriteNamespace(pending[n - 1].0, pending[n - 1].1)], before.1 + [Binding(pending[n - 1].0, pending[n - 1].1, depth)])
  }

  /** A start tag, with a declaration of its own prefix if need be. */
  function TagsOf(name: Name, declare: bool): seq<Call> {
    if declare then [WriteStart(name), WriteNamespace(name.prefix, name.uri)] else [WriteStart(name)]
  }

  function BindingsOf(name: Name, declare: bool, depth: nat): seq<Binding> {
    if declare then [Binding(name.prefix, name.uri, depth)] else []
  }

  /** The start tag held back is written, with its declarations. */
  function FlushedBy(S: Sink, o: Setting): Option<Sink> {
    match S.pendingName
    case None => Some(S)
    case Some(name) =>
      match ResolvedBy(S, o, name)
      case None => None
      case Some(r) =>
        var d := |S.elementNames|;
        var tags := S.calls + TagsOf(r.name, r.declare);
        var declared := S.active + BindingsOf(r.name, r.declare, d);
        var n := |S.pendingNamespaces|;
        if d >= o.limit || (r.declare && |S.active| >= o.limit) || (n != 0 && |declared| + n > o.limit) then None
        else
          var more := NamespacesOf(S.pendingNamespaces, n, d);
          Some(Sink(None, [], r.sink.generated, declared + more.1, S.elementNames + [r.name], tags + more.0))
  }

  /** A name used inside a start tag, its prefix declared on the innermost element if need be. */
  function DeclaredBy(S: Sink, o: Setting, name: Name): Option<(Name, Sink)> {
    match ResolvedBy(S, o, name)
    case None => None
    case Some(r) =>
      if !r.declare then Some((r.name, r.sink))
      else if S.elementNames == [] || |S.active| >= o.limit then None
      else
        Some((r.name, r.sink.(calls := S.calls + [WriteNamespace(r.name.prefix, r.name.uri)],
                              active := S.active + [Binding(r.name.prefix, r.name.uri, |S.elementNames| - 1)])))
  }

  function AttributeBy(S: Sink, o: Setting, name: Name): Option<Sink> {
    match FlushedBy(S, o)
    case None => None
    case Some(T) =>
      match DeclaredBy(T, o, name)
      case None => None
      case Some(r) => Some(r.1.(calls := r.1.calls + [WriteAttribute(r.0)]))
  }

  function QNameAttributeBy(S: Sink, o: Setting, name: Name, value: Name): Option<Sink> {
    match FlushedBy(S, o)
    case None => None
    case Some(T) =>
      match DeclaredBy(T, o, name)
      case None => None
      case Some(r) =>
        if value.uri == [] then Some(r.1.(calls := r.1.calls + [WriteQNameAttribute(r.0, value.(prefix := []))]))
        else
          match DeclaredBy(r.1, o, value)
          case None => None
          case Some(v) => Some(v.1.(calls := v.1.calls + [WriteQNameAttribute(r.0, v.0)]))
  }

  function StartBy(S: Sink, o: Setting, name: Name): Option<Sink> {
    match FlushedBy(S, o)
    case None => None
    case Some(T) => Some(T.(pendingName := Some(name), pendingNamespaces := []))
  }

  function NamespaceBy(S: Sink, o: Setting, prefix: Text, uri: Text, localElementNamespace: bool): Option<Sink> {
    if S.pendingName.None? || |S.pendingNamespaces| >= o.limit then None
    else
      Some(S.(pendingName := if localElementNamespace then Some(S.pendingName.value.(prefix := prefix)) else S.pendingName,
              pendingNamespaces := S.pendingNamespaces + [(prefix, uri)]))
  }

  function ContentBy(S: Sink, o: Setting): Option<Sink> {
    match FlushedBy(S, o)
    case None => None
    case Some(T) => Some(T.(calls := T.calls + [WriteContent]))
  }

  /** How many bindings stay when those declared at `depth` or deeper at the end are dropped. */
  function Kept(active: seq<Binding>, depth: nat, n: nat): (r: nat)
    requires n <= |active|
    ensures r <= n
  {
    if n != 0 && active[n - 1].depth >= depth then Kept(active, depth, n - 1) else n
  }

  function EndBy(S: Sink, o: Setting): Option<Sink> {
    match FlushedBy(S, o)
    case None => None
    case Some(T) =>
      var n := |T.elementNames|;
      if n == 0 then None
      else
        Some(T.(elementNames := T.elementNames[..n - 1], calls := T.calls + [WriteEnd(T.elementNames[n - 1])],
                active := T.active[..Kept(T.active, n - 1, |T.active|)]))
  }

  /** What a call did is what its function says. */
  predicate Does(status: Status, S: Sink, result: Option<Sink>) {
    && (status == Success <==> result.Some?)
    && (status == Success ==> result == Some(S))
  }

  class XmlEventSink {
    const preservePrefixes: bool
    const maxBindings: nat
    var pendingName: Option<Name>
    var pendingNamespaces: seq<(Text, Text)>
    var generated: seq<(Text, Text)>
    var active: seq<Binding>
    var elementNames: seq<Name>
    var calls: seq<Call>

    constructor (limit: nat, preserve: bool)
      ensures Valid() && calls == [] && preservePrefixes == preserve && pendingName.None? && elementNames == []
    {
      preservePrefixes, maxBindings := preserve, limit;
      pendingName, pendingNamespaces, generated, active, elementNames, calls := None, [], [], [], [], [];
    }

    ghost predicate Valid()
      reads this
    {
      && OpenTags(calls) == Some(elementNames)
      && (!preservePrefixes ==>
            && SinkOk(calls, active, generated, |elementNames|)
            && pendingNamespaces == [] && (pendingName.Some? ==> pendingName.value.prefix == []))
    }

    function Now(): Sink
      reads this
    {
      Sink(pendingName, pendingNamespaces, generated, active, elementNames, calls)
    }

    function Bounds(): Setting {
      Setting(preservePrefixes, maxBindings)
    }

    method GeneratePrefix(uri: Text) returns (status: Status, prefix: Text)
      modifies this`generated
      ensures status == Success ==>
                if exists i :: 0 <= i < |old(generated)| && old(generated)[i].1 == uri
                then generated == old(generated) && exists i :: 0 <= i < |generated| && generated[i] == (prefix, uri)
                else prefix == Generated(|old(generated)|) && generated == old(generated) + [(prefix, uri)]
      ensures status != Success ==> generated == old(generated)
      ensures status == Success <==> |old(generated)| < maxBindings
      ensures status == Success ==>
                var i := PlaceOf(old(generated), uri, 0);
                if i < |old(generated)| then prefix == old(generated)[i].0 && generated == old(generated)
                else prefix == Generated(|old(generated)|) && generated == old(generated) + [(prefix, uri)]
    {
      prefix := [];
      if |generated| >= maxBindings {
        return InvalidParameter, prefix;
      }
      for index := 0 to |generated|
        invariant forall k :: 0 <= k < index ==> generated[k].1 != uri
        invariant generated == old(generated) && PlaceOf(generated, uri, index) == PlaceOf(generated, uri, 0)
      {
        if generated[index].1 == uri {
          return Success, generated[index].0;
        }
      }
      prefix := Generated(|generated|);
      generated := generated + [(prefix, uri)];
      status := Success;
    }

    /** The name with its prefix, and whether the prefix has yet to be declared. */
    method ResolveName(name: Name) returns (status: Status, resolved: Name, declareBinding: bool)
      requires Valid() && (!preservePrefixes ==> name.prefix == [])
      modifies this`generated
      ensures Valid()
      ensures resolved.uri == name.uri && resolved.local == name.local
      ensures preservePrefixes ==> status == Success && resolved == name && !declareBinding && generated == old(generated)
      ensures declareBinding ==> name.uri != [] && name.uri != XML_URI
      ensures status == Success && !preservePrefixes ==>
                if declareBinding then
                  && !Declared(Scope(|elementNames|, active), resolved.prefix) && resolved.prefix != XML_PREFIX
                  && forall d :: FromGenerated(Binding(resolved.prefix, resolved.uri, d), generated)
                else Resolves(Scope(|elementNames|, active), resolved)
      ensures var r := ResolvedBy(old(Now()), Bounds(), name);
              && (status == Success <==> r.Some?) && (status == Success ==> r == Some(Resolution(resolved, declareBinding, Now())))
    {
      hide GeneratedOk; hide ActiveOk; hide CallsOk; hide Generated; hide XML_URI; hide XML_PREFIX;
      status, resolved, declareBinding := Success, name, false;
      if preservePrefixes || name.uri == [] || name.prefix != [] {
        return;
      }
      if name.uri == XML_URI {
        resolved := name.(prefix := XML_PREFIX);
        return;
      }
      for index := |active| downto 0
        invariant forall k :: index <= k < |active| ==> active[k].uri != name.uri
        invariant generated == old(generated) && ActivePrefix(active, name.uri, index) == ActivePrefix(active, name.uri, |active|)
      {
        if active[index].uri == name.uri {
          resolved := name.(prefix := active[index].prefix);
          return;
        }
      }
      ghost var before := generated;
      var prefix;
      status, prefix := GeneratePrefix(name.uri);
      resolved := name.(prefix := prefix);
      declareBinding := true;
      if status == Success {
        ghost var i: nat;
        if k :| 0 <= k < |before| && before[k].1 == name.uri {
          i :| i < |generated| && generated[i] == (prefix, name.uri);
        } else {
          NewGenerated(before, name.uri);
          MoreGenerated(active, before, (prefix, name.uri), |elementNames|);
          i := |before|;
        }
        NotDeclared(active, generated, |elementNames|, i);
        GeneratedAt(generated, i);
        assert generated[i] == (prefix, name.uri);
      }
    }

    method WriteTag(resolved: Name, declareBinding: bool)
      requires OpenTags(calls) == Some(elementNames)
      requires declareBinding ==> resolved.uri != [] && resolved.uri != XML_URI
      requires !preservePrefixes ==>
                 && SinkOk(calls, active, generated, |elementNames|)
                 && if declareBinding then
                      && !Declared(Scope(|elementNames|, active), resolved.prefix) && resolved.prefix != XML_PREFIX
                      && forall d :: FromGenerated(Binding(resolved.prefix, resolved.uri, d), generated)
                    else Resolves(Scope(|elementNames|, active), resolved)
      modifies this`calls, this`active
      ensures calls == old(calls) + TagsOf(resolved, declareBinding)
      ensures active == old(active) + BindingsOf(resolved, declareBinding, |elementNames|)
      ensures OpenTags(calls) == Some(elementNames + [resolved])
      ensures !preservePrefixes ==> SinkOk(calls, active, generated, |elementNames| + 1)
    {
      hide SinkOk; hide OpenTags; hide Declared; hide Resolves; hide XML_URI; hide XML_PREFIX;
      if declareBinding {
        if !preservePrefixes {
          AddDeclaringStart(calls, resolved, active, generated, |elementNames|);
        }
        TagsOfTwo(calls, WriteStart(resolved), WriteNamespace(resolved.prefix, resolved.uri), elementNames);
        calls := calls + [WriteStart(resolved), WriteNamespace(resolved.prefix, resolved.uri)];
        active := active + [Binding(resolved.prefix, resolved.uri, |elementNames|)];
      } else {
        if !preservePrefixes {
          AddStart(calls, resolved, active, generated, |elementNames|);
        }
        TagsNext(calls, WriteStart(resolved), elementNames);
        calls := calls + [WriteStart(resolved)];
      }
    }

    /** Write the start tag that was held back, with the namespace declarations it needs. */
    method FlushPending() returns (status: Status)
      requires Valid()
      modifies this
      ensures status == Success ==> Valid() && pendingName.None?
      ensures status == Success ==>
                match old(pendingName)
                case None => calls == old(calls) && elementNames == old(elementNames)
                case Some(name) =>
                  && |elementNames| == |old(elementNames)| + 1 && elementNames[..|old(elementNames)|] == old(elementNames)
                  && elementNames[|old(elementNames)|].(prefix := name.prefix) == name
                  && (preservePrefixes ==> elementNames[|old(elementNames)|] == name)
      ensures Does(status, Now(), FlushedBy(old(Now()), Bounds()))
    {
      hide GeneratedOk; hide ActiveOk; hide CallsOk; hide Generated; hide Declared; hide Resolves; hide OpenTags;
      hide TagsOf; hide ResolvedBy;
      hide XML_URI; hide XML_PREFIX; hide SinkOk;
      if pendingName.None? {
        return Success;
      }
      var resolved, declareBinding;
      status, resolved, declareBinding := ResolveName(pendingName.value);
      if status != Success {
        return;
      }
      if |elementNames| >= maxBindings || (declareBinding && |active| >= maxBindings) {
        return InvalidNetworkResponse;
      }
      ghost var d := |elementNames|;
      WriteTag(resolved, declareBinding);
      var pending := pendingNamespaces;
      ghost var tags, declared, made := calls, active, generated;
      for index := 0 to |pending|
        invariant !preservePrefixes ==> SinkOk(calls, active, generated, d + 1) && pending == []
        invariant elementNames == old(elementNames) && OpenTags(calls) == Some(elementNames + [resolved])
        invariant calls == tags + NamespacesOf(pending, index, d).0 && active == declared + NamespacesOf(pending, index, d).1
        invariant (index == 0 || |active| <= maxBindings) && generated == made
      {
        if |active| >= maxBindings {
          return BufferTooSmall;
        }
        TagsNext(calls, WriteNamespace(pending[index].0, pending[index].1), elementNames + [resolved]);
        calls := calls + [WriteNamespace(pending[index].0, pending[index].1)];
        active := active + [Binding(pending[index].0, pending[index].1, |elementNames|)];
      }
      elementNames := elementNames + [resolved];
      pendingName, pendingNamespaces := None, [];
      status := Success;
    }

    method StartElement(name: Name) returns (status: Status)
      requires Valid() && (!preservePrefixes ==> name.prefix == [])
      modifies this
      ensures status == Success ==> Valid() && pendingName == Some(name)
      ensures Does(status, Now(), StartBy(old(Now()), Bounds(), name))
    {
      status := FlushPending();
      if status != Success {
        return;
      }
      pendingName, pendingNamespaces := Some(name), [];
    }

    /** Declarations are only decoded when prefixes are preserved. */
    method Namespace(prefix: Text, uri: Text, localElementNamespace: bool) returns (status: Status)
      requires Valid() && preservePrefixes
      modifies this
      ensures Valid()
      ensures Does(status, Now(), NamespaceBy(old(Now()), Bounds(), prefix, uri, localElementNamespace))
    {
      if pendingName.None? || |pendingNamespaces| >= maxBindings {
        return InvalidNetworkResponse;
      }
      if localElementNamespace {
        pendingName := Some(pendingName.value.(prefix := prefix));
      }
      pendingNamespaces := pendingNamespaces + [(prefix, uri)];
      status := Success;
    }

    /** Resolve a name used in an attribute, declaring its prefix on the innermost element if need be. */
    method ResolveAndDeclare(name: Name) returns (status: Status, resolved: Name)
      requires Valid() && pendingName.None? && (!preservePrefixes ==> name.prefix == [])
      modifies this
      ensures status == Success ==> Valid() && pendingName.None? && elementNames == old(elementNames)
      ensures status == Success && !preservePrefixes ==> Resolves(Scope(|elementNames|, active), resolved)
      ensures status == Success && !preservePrefixes ==>
                forall p, u :: InScope(Scope(|old(elementNames)|, old(active)), p, u) ==> InScope(Scope(|elementNames|, active), p, u)
      ensures resolved.uri == name.uri && resolved.local == name.local
      ensures var r := DeclaredBy(old(Now()), Bounds(), name);
              && (status == Success <==> r.Some?) && (status == Success ==> r == Some((resolved, Now())))
    {
      hide GeneratedOk; hide ActiveOk; hide CallsOk; hide Generated; hide Declared;
      var declareBinding;
      status, resolved, declareBinding := ResolveName(name);
      if status != Success || !declareBinding {
        return;
      }
      if elementNames == [] {
        return InvalidNetworkResponse, resolved;
      }
      if |active| >= maxBindings {
        return BufferTooSmall, resolved;
      }
      if !preservePrefixes {
        AddNamespace(calls, resolved.prefix, resolved.uri, active, generated, |elementNames|);
      }
      ghost var before := active;
      TagsNext(calls, WriteNamespace(resolved.prefix, resolved.uri), elementNames);
      calls := calls + [WriteNamespace(resolved.prefix, resolved.uri)];
      active := active + [Binding(resolved.prefix, resolved.uri, |elementNames| - 1)];
      ScopeGrows(before, active[|active| - 1], |elementNames|);
      DeclaredResolves(before, resolved, |elementNames|, |elementNames| - 1);
    }

    method Attribute(name: Name) returns (status: Status)
      requires Valid() && (!preservePrefixes ==> name.prefix == [])
      modifies this
      ensures status == Success ==> Valid() && pendingName.None?
      ensures status == Success ==>
                |calls| > 0 && calls[|calls| - 1].WriteAttribute? && calls[|calls| - 1].name.(prefix := name.prefix) == name
      ensures Does(status, Now(), AttributeBy(old(Now()), Bounds(), name))
    {
      hide SinkOk; hide OpenTags;
      status := FlushPending();
      if status != Success {
        return;
      }
      var resolved;
      status, resolved := ResolveAndDeclare(name);
      if status != Success {
        return;
      }
      if !preservePrefixes {
        AddCall(calls, WriteAttribute(resolved), active, generated, |elementNames|);
      }
      TagsNext(calls, WriteAttribute(resolved), elementNames);
      calls := calls + [WriteAttribute(resolved)];
    }

    method QNameAttribute(name: Name, value: Name) returns (status: Status)
      requires Valid() && (!preservePrefixes ==> name.prefix == [] && value.prefix == [])
      modifies this
      ensures status == Success ==> Valid() && pendingName.None?
      ensures status == Success ==>
                && |calls| > 0 && calls[|calls| - 1].WriteQNameAttribute?
                && calls[|calls| - 1].name.(prefix := name.prefix) == name && calls[|calls| - 1].value.(prefix := value.prefix) == value
      ensures Does(status, Now(), QNameAttributeBy(old(Now()), Bounds(), name, value))
    {
      hide SinkOk; hide OpenTags; hide XML_URI; hide XML_PREFIX;
      status := FlushPending();
      if status != Success {
        return;
      }
      var resolved, resolvedValue;
      status, resolved := ResolveAndDeclare(name);
      if status != Success {
        return;
      }
      ghost var before := active;
      resolvedValue := value.(prefix := []);
      if value.uri != [] {
        status, resolvedValue := ResolveAndDeclare(value);
        if status != Success {
          return;
        }
      }
      if !preservePrefixes {
        AddCall(calls, WriteQNameAttribute(resolved, resolvedValue), active, generated, |elementNames|);
      }
      TagsNext(calls, WriteQNameAttribute(resolved, resolvedValue), elementNames);
      calls := calls + [WriteQNameAttribute(resolved, resolvedValue)];
    }

    /** Characters, comments, processing instructions and the like. */
    method Content() returns (status: Status)
      requires Valid()
      modifies this
      ensures status == Success ==> Valid() && pendingName.None? && |calls| > 0 && calls[|calls| - 1] == WriteContent
      ensures Does(status, Now(), ContentBy(old(Now()), Bounds()))
    {
      hide SinkOk; hide OpenTags;
      status := FlushPending();
      if status != Success {
        return;
      }
      if !preservePrefixes {
        AddCall(calls, WriteContent, active, generated, |elementNames|);
      }
      TagsNext(calls, WriteContent, elementNames);
      calls := calls + [WriteContent];
    }

    method EndElement() returns (status: Status)
      requires Valid()
      modifies this
      ensures status == Success ==> Valid() && pendingName.None? && |calls| > 0 && calls[|calls| - 1].WriteEnd?
      ensures status == Success ==>
                if old(pendingName).Some? then elementNames == old(elementNames)
                else |old(elementNames)| > 0 && elementNames == old(elementNames)[..|old(elementNames)| - 1]
      ensures Does(status, Now(), EndBy(old(Now()), Bounds()))
    {
      hide GeneratedOk; hide CallsOk; hide OpenTags; hide SinkOk; hide FlushedBy;
      status := FlushPending();
      if status != Success {
        return;
      }
      if elementNames == [] {
        return InvalidNetworkResponse;
      }
      var name := elementNames[|elementNames| - 1];
      var depth := |elementNames| - 1;
      var bindings := active;
      var count: nat := |bindings|;
      while count != 0 && bindings[count - 1].depth >= depth
        invariant count <= |bindings| && Kept(bindings, depth, count) == Kept(bindings, depth, |bindings|)
        invariant forall k :: count <= k < |bindings| ==> bindings[k].depth >= depth
      {
        count := count - 1;
      }
      if !preservePrefixes {
        AddEnd(calls, name, active, generated, |elementNames|, count);
      }
      TagsNext(calls, WriteEnd(name), elementNames);
      elementNames := elementNames[..depth];
      calls := calls + [WriteEnd(name)];
      active := bindings[..count];
    }
  }

  lemma GeneratedAt(generated: seq<(Text, Text)>, i: nat)
    requires GeneratedOk(generated) && i < |generated|
    ensures generated[i].0 != XML_PREFIX
    ensures forall d :: FromGenerated(Binding(generated[i].0, generated[i].1, d), generated)
  {
    GeneratedNotXml(i);
  }

  lemma ScopeGrows(active: seq<Binding>, b: Binding, open: nat)
    ensures forall p, u :: InScope(Scope(open, active), p, u) ==> InScope(Scope(open, active + [b]), p, u)
  {
    forall p, u | InScope(Scope(open, active), p, u)
      ensures InScope(Scope(open, active + [b]), p, u)
    {
      var k :| 0 <= k < |active| && active[k].prefix == p && active[k].uri == u;
      assert (active + [b])[k] == active[k];
    }
  }

  lemma DeclaredResolves(active: seq<Binding>, name: Name, open: nat, d: nat)
    ensures name.uri != [] && name.uri != XML_URI ==> Resolves(Scope(open, active + [Binding(name.prefix, name.uri, d)]), name)
  {
    assert (active + [Binding(name.prefix, name.uri, d)])[|active|].prefix == name.prefix;
  }
}
