// The encoder's words as bytes: every document can be encoded, and one nested deeper than its encoding has
// bytes is refused.
module ExiEncoded {
  import opened Common
  import opened ExiBits
  import opened ExiGrammars
  import opened ExiEvents
  import opened ExiSpoken
  import opened ExiTurns
  import opened ExiRoundTrip
  import D = ExiDocument

  //
  // Bytes
  //

  function BitAt(bits: seq<bool>, k: nat): nat {
    if k < |bits| && bits[k] then 1 else 0
  }

  /** The eight bits from `at` on, high bit first. */
  function Octet(bits: seq<bool>, at: nat): byte {
    128 * BitAt(bits, at) + 64 * BitAt(bits, at + 1) + 32 * BitAt(bits, at + 2) + 16 * BitAt(bits, at + 3)
      + 8 * BitAt(bits, at + 4) + 4 * BitAt(bits, at + 5) + 2 * BitAt(bits, at + 6) + BitAt(bits, at + 7)
  }

  /** As few bytes as hold the bits. */
  function Pack(bits: seq<bool>): (r: seq<byte>)
    ensures |r| == (|bits| + 7) / 8
  {
    seq((|bits| + 7) / 8, i requires 0 <= i => Octet(bits, 8 * i))
  }

  lemma OctetHolds(bits: seq<bool>, at: nat, j: nat)
    requires j < 8
    ensures Octet(bits, at) / Pow2(7 - j) % 2 == BitAt(bits, at + j)
  {
    hide BitAt;
    assert Pow2(0) == 1 && Pow2(1) == 2 && Pow2(2) == 4 && Pow2(3) == 8;
    assert Pow2(4) == 16 && Pow2(5) == 32 && Pow2(6) == 64 && Pow2(7) == 128;
    ByteHolds(BitAt(bits, at), BitAt(bits, at + 1), BitAt(bits, at + 2), BitAt(bits, at + 3), BitAt(bits, at + 4), BitAt(bits, at + 5),
              BitAt(bits, at + 6), BitAt(bits, at + 7)) by { SmallBits(bits, at); }
  }

  lemma SmallBits(bits: seq<bool>, at: nat)
    ensures BitAt(bits, at) <= 1 && BitAt(bits, at + 1) <= 1 && BitAt(bits, at + 2) <= 1 && BitAt(bits, at + 3) <= 1
    ensures BitAt(bits, at + 4) <= 1 && BitAt(bits, at + 5) <= 1 && BitAt(bits, at + 6) <= 1 && BitAt(bits, at + 7) <= 1
  {
  }

  lemma ByteHolds(a: nat, b: nat, c: nat, d: nat, e: nat, f: nat, g: nat, h: nat)
    requires a <= 1 && b <= 1 && c <= 1 && d <= 1 && e <= 1 && f <= 1 && g <= 1 && h <= 1
    ensures var v := 128 * a + 64 * b + 32 * c + 16 * d + 8 * e + 4 * f + 2 * g + h;
      && v / 128 % 2 == a && v / 64 % 2 == b && v / 32 % 2 == c && v / 16 % 2 == d
      && v / 8 % 2 == e && v / 4 % 2 == f && v / 2 % 2 == g && v / 1 % 2 == h
  {
    var v6 := 2 * a + b;
    var v5 := 2 * v6 + c;
    var v4 := 2 * v5 + d;
    var v3 := 2 * v4 + e;
    var v2 := 2 * v3 + f;
    var v1 := 2 * v2 + g;
    var v := 2 * v1 + h;
    Halved(v, v1, h);
    Halved(v1, v2, g);
    Halved(v2, v3, f);
    Halved(v3, v4, e);
    Halved(v4, v5, d);
    Halved(v5, v6, c);
    Halved(v6, a, b);
    assert v / 4 == v / 2 / 2 && v / 8 == v / 4 / 2 && v / 16 == v / 8 / 2;
    assert v / 32 == v / 16 / 2 && v / 64 == v / 32 / 2 && v / 128 == v / 64 / 2;
  }

  lemma Halved(v: nat, half: nat, bit: nat)
    requires v == 2 * half + bit && bit <= 1
    ensures v / 2 == half && v % 2 == bit
  {
  }

  lemma PackStands(bits: seq<bool>)
    ensures Stand(Pack(bits), 0, bits)
  {
    hide Pow2; hide Octet;
    var data := Pack(bits);
    forall k: nat | k < |bits|
      ensures BitIs(data, k, bits[k])
    {
      OctetHolds(bits, 8 * (k / 8), k % 8);
      assert data[k / 8] == Octet(bits, 8 * (k / 8));
    }
  }

  //
  // What the readers of names and values find
  //

  function Found(w: D.Word, end: nat): Content {
    var nothing := Content(true, end, 0, Name([], [], []), false, false, false, [], false, []);
    match w.sense
    case Nothing => nothing
    case ElementName(qname, name, spelled) => nothing.(qname := qname, name := name, names := seq(qname + 1, _ => name))
    case AttributeName(qname, name, spelled, nil, typed) =>
      nothing.(qname := qname, name := name, names := seq(qname + 1, _ => name), setsNil := nil.Some?,
               nil := nil.Some? && nil.value, simpleType := typed)
    case Prefix(local, prefix) => nothing.(localNamespace := local, prefix := prefix)
  }

  function FoundIn(words: seq<D.Word>, pos: nat): (r: seq<Content>)
    ensures |r| == |words|
  {
    if words == [] then []
    else [Found(words[0], pos + |words[0].code| + |words[0].rest|)] + FoundIn(words[1..], pos + |D.Padded(words[0], pos)|)
  }

  /** The contents in order, and nothing behind them. */
  function InOrder(found: seq<Content>): nat -> Content {
    (k: nat) => if k < |found| then found[k] else Content(false, 0, 0, Name([], [], []), false, false, false, [], false, [])
  }

  lemma {:induction false} FoundDelivers(words: seq<D.Word>, all: seq<Content>, pos: nat, i: nat)
    requires i <= |all| && all[i..] == FoundIn(words, pos)
    ensures D.Delivered(InOrder(all), words, pos, i)
    decreases |words|
  {
    hide D.Padded;
    if words != [] {
      assert all[i..][1..] == all[i + 1..];
      assert all[i] == all[i..][0];
      FoundDelivers(words[1..], all, pos + |D.Padded(words[0], pos)|, i + 1);
    }
  }

  function Encoded(pen: D.Pen, doc: D.Doc): seq<byte> {
    Pack(D.Spell(D.DocWords(pen, doc), 0))
  }

  function Contents(pen: D.Pen, doc: D.Doc): nat -> Content {
    InOrder(FoundIn(D.DocWords(pen, doc), 0))
  }

  /** The event loop on the encoding of a document, with the limits the decoder sets itself. */
  function Decoding(pen: D.Pen, doc: D.Doc): Option<Session> {
    var data := Encoded(pen, doc);
    RunBy(Opening(doc.Fragment?), Limits(pen.options, |data| + 1, |data| * 8 + 1), data, pen.mode, 0, Contents(pen, doc), 0,
          |data| * 8 + 1)
  }

  /**
   * What the encoder writes for a document comes back as the events of its tree if and only if no element is
   * nested deeper than the decoder's stacks are high.
   */
  lemma EncodedDecodes(pen: D.Pen, doc: D.Doc)
    requires D.DocOk(pen, doc) && 8 * |Encoded(pen, doc)| < LONGEST
    ensures Decoding(pen, doc).Some? <==> D.DocRoom(doc, |Encoded(pen, doc)| + 1)
    ensures Decoding(pen, doc).Some? ==> Decoding(pen, doc).value.finished && Decoding(pen, doc).value.log == D.DocEvents(doc)
  {
    hide D.DocWords; hide D.Spell; hide FoundIn; hide RunBy; hide Pack; hide D.DocOk; hide D.DocRoom; hide D.DocEvents;
    var words := D.DocWords(pen, doc);
    PackStands(D.Spell(words, 0));
    var found := FoundIn(words, 0);
    assert found[0..] == found;
    FoundDelivers(words, found, 0, 0);
    WordsDecode(pen, doc, Encoded(pen, doc), Contents(pen, doc), 0);
  }

  //
  // A document that is refused: elements a inside elements a
  //

  const PLAIN: D.Pen := D.Pen(BitPacked, Options(false, false, false, false, false))
  const NAME: Name := Name([], [97], [])
  const QNAME: nat := 12

  function Blank(n: nat): D.Bits {
    seq(n, _ => false)
  }

  /** An element a around k more; its name, spelled for the second time, takes ten bits. */
  function Chain(k: nat): D.Element {
    D.Element(NAME, QNAME, Blank(10), [], D.Children(if k == 0 then [] else [D.Child(Chain(k - 1))]))
  }

  /** The outermost of k + 2 elements spells its name for the first time, in eighteen bits. */
  function Deep(k: nat): D.Doc {
    D.Document([], D.Element(NAME, QNAME, Blank(18), [], D.Children([D.Child(Chain(k))])), [])
  }

  const TAG: D.Key := D.Key(QNAME, D.Tag)
  const STARTED: D.Lists := map[TAG := [D.Start(QNAME)]]
  const ENDED: D.Lists := map[TAG := [D.End, D.Start(QNAME)]]

  lemma Widths()
    ensures WidthFor(1) == 0 && WidthFor(2) == 1 && WidthFor(4) == 2
  {
    assert Pow2(0) == 1 && Pow2(1) == 2 && Pow2(2) == 4;
    assert WidthFrom(2, 0) == WidthFrom(2, 1) == 1;
    assert WidthFrom(4, 0) == WidthFrom(4, 1) == WidthFrom(4, 2) == 2;
  }

  lemma OnePart(a: D.Part)
    requires a.of == 1 || a.of == 2 || a.of == 4
    ensures |D.Code(PLAIN, [a])| == if a.of == 1 then 0 else if a.of == 2 then 1 else 2
  {
    Widths();
    assert [a][1..] == [];
  }

  lemma TwoParts(a: D.Part, b: D.Part)
    ensures |D.Code(PLAIN, [a, b])| == |D.Code(PLAIN, [a])| + |D.Code(PLAIN, [b])|
  {
    assert [a, b][1..] == [b] && [a][1..] == [];
  }

  lemma OneWord(w: D.Word, pos: nat)
    requires !w.pad
    ensures EndOf([w], pos) == pos + |w.code| + |w.rest|
  {
    assert [w][1..] == [];
    assert D.Padded(w, pos) == w.code + w.rest + [];
    assert D.Spell([w], pos) == D.Padded(w, pos) + [];
  }

  lemma Joined(a: seq<D.Word>, b: seq<D.Word>, pos: nat)
    ensures EndOf(a + b, pos) == EndOf(b, EndOf(a, pos))
  {
    SpellJoined(a, b, pos);
  }

  /** An element that starts for the first time, and one that is known. */
  lemma StartBits(e: D.Element, pos: nat)
    requires e.qname == QNAME
    ensures var s := D.StartPiece(PLAIN, map[], TAG, e);
      |s.words| == 1 && s.lists == STARTED && EndOf(s.words, pos) == pos + 2 + |e.spelling|
    ensures var s := D.StartPiece(PLAIN, STARTED, TAG, e);
      |s.words| == 1 && s.lists == STARTED && EndOf(s.words, pos) == pos + 1
  {
    hide D.Code; hide EndOf;
    OnePart(D.Part(0, 1));
    OnePart(D.Part(2, 4));
    OnePart(D.Part(0, 2));
    TwoParts(D.Part(0, 1), D.Part(2, 4));
    assert [D.Start(QNAME)] + [] == [D.Start(QNAME)];
    assert D.Built(PLAIN, D.Tag, 0, StartElement) == [D.Part(0, 1), D.Part(2, 4)];
    OneWord(D.StartPiece(PLAIN, map[], TAG, e).words[0], pos);
    OneWord(D.StartPiece(PLAIN, STARTED, TAG, e).words[0], pos);
  }

  /** The end of an element without content, and of one with content. */
  lemma EndBits(pos: nat)
    ensures var s := D.EndPiece(PLAIN, STARTED, TAG); |s.words| == 1 && s.lists == ENDED && EndOf(s.words, pos) == pos + 3
    ensures var s := D.EndPiece(PLAIN, ENDED, D.Key(QNAME, D.Inside));
      |s.words| == 1 && s.lists == ENDED && EndOf(s.words, pos) == pos + 1
  {
    hide D.Code; hide EndOf;
    OnePart(D.Part(1, 2));
    OnePart(D.Part(0, 4));
    OnePart(D.Part(0, 2));
    TwoParts(D.Part(1, 2), D.Part(0, 4));
    assert [D.End] + [D.Start(QNAME)] == [D.End, D.Start(QNAME)];
    assert D.Built(PLAIN, D.Tag, 1, EndElement) == [D.Part(1, 2), D.Part(0, 4)];
    OneWord(D.EndPiece(PLAIN, STARTED, TAG).words[0], pos);
    OneWord(D.EndPiece(PLAIN, ENDED, D.Key(QNAME, D.Inside)).words[0], pos);
  }

  /** An element e around one child, whose body was measured. */
  lemma AroundBits(lists: D.Lists, e: D.Element, pos: nat, start: nat, body: nat)
    requires e.qname == QNAME && e.tag == []
    requires var s := D.StartPiece(PLAIN, lists, TAG, e); s.lists == STARTED && EndOf(s.words, pos) == pos + start
    requires var b := D.BodyPiece(PLAIN, STARTED, QNAME, e.body); b.lists == ENDED && EndOf(b.words, pos + start) == pos + start + body
    ensures var s := D.BodyPiece(PLAIN, lists, QNAME, D.Children([D.Child(e)]));
      s.lists == ENDED && EndOf(s.words, pos) == pos + start + body + 1
  {
    hide EndOf; hide D.StartPiece; hide D.EndPiece;
    var s, b := D.StartPiece(PLAIN, lists, TAG, e), D.BodyPiece(PLAIN, STARTED, QNAME, e.body);
    var nodes := [D.Child(e)];
    assert nodes[1..] == [];
    assert D.InnerPiece(PLAIN, STARTED, QNAME, [], e.body) == D.Piece([] + b.words, ENDED);
    assert [] + b.words == b.words;
    assert D.ElementPiece(PLAIN, lists, TAG, e) == D.Piece(s.words + b.words, ENDED);
    assert D.NodesPiece(PLAIN, ENDED, D.Key(QNAME, D.Inside), []) == D.Piece([], ENDED);
    assert D.NodesPiece(PLAIN, lists, TAG, nodes) == D.Piece(s.words + b.words + [], ENDED);
    assert s.words + b.words + [] == s.words + b.words;
    Joined(s.words, b.words, pos);
    EndBits(pos + start + body);
    Joined(s.words + b.words, D.EndPiece(PLAIN, ENDED, D.Key(QNAME, D.Inside)).words, pos);
  }

  /** Each inner element takes one bit to start and one to end, the innermost three to end. */
  lemma {:induction false} ChainBits(k: nat, pos: nat)
    ensures var s := D.BodyPiece(PLAIN, STARTED, QNAME, Chain(k).body);
      s.lists == ENDED && EndOf(s.words, pos) == pos + 2 * k + 3
    decreases k
  {
    hide EndOf; hide D.StartPiece; hide D.EndPiece;
    if k == 0 {
      EndBits(pos);
      var s := D.EndPiece(PLAIN, STARTED, TAG);
      assert D.NodesPiece(PLAIN, STARTED, TAG, []) == D.Piece([], STARTED);
      assert [] + s.words == s.words;
    } else {
      var e := Chain(k - 1);
      ChainIs(k - 1);
      StartBits(e, pos);
      ChainBits(k - 1, pos + 1);
      AroundBits(STARTED, e, pos, 1, 2 * k + 1);
    }
  }

  lemma DeepBits(k: nat)
    ensures |D.Spell(D.DocWords(PLAIN, Deep(k)), 0)| == 34 + 2 * k
  {
    hide EndOf; hide Chain; hide D.BodyPiece; hide D.StartPiece; hide D.DocWords; hide D.Spell;
    ChainIs(k);
    StartBits(Chain(k), 18);
    ChainBits(k, 30);
    AroundBits(map[], Chain(k), 18, 12, 2 * k + 3);
    RootBits(k, D.BodyPiece(PLAIN, map[], QNAME, D.Children([D.Child(Chain(k))])).words);
  }

  lemma ChainIs(k: nat)
    ensures Chain(k).name == NAME && Chain(k).qname == QNAME && Chain(k).tag == [] && |Chain(k).spelling| == 10
  {
  }

  lemma RootBits(k: nat, body: seq<D.Word>)
    requires EndOf(body, 18) == 34 + 2 * k
    requires body == D.BodyPiece(PLAIN, map[], QNAME, D.Children([D.Child(Chain(k))])).words
    ensures |D.Spell(D.DocWords(PLAIN, Deep(k)), 0)| == 34 + 2 * k
  {
    hide D.BodyPiece; hide Chain; hide EndOf; hide D.Spell;
    var sd := D.Word([], [], D.Nothing);
    var rw := D.Word([], Blank(18), D.ElementName(QNAME, NAME, true));
    var words := D.DocWords(PLAIN, Deep(k));
    assert words == [sd] + [] + [rw] + ([] + body) + [] + [sd];
    assert words == [sd] + ([rw] + (body + [sd]));
    OneWord(sd, 0);
    OneWord(rw, 0);
    OneWord(sd, 34 + 2 * k);
    Joined([sd], [rw] + (body + [sd]), 0);
    Joined([rw], body + [sd], 0);
    Joined(body, [sd], 18);
    EndIs(words);
  }

  lemma EndIs(words: seq<D.Word>)
    ensures EndOf(words, 0) == |D.Spell(words, 0)|
  {
  }

  lemma {:induction false} ChainOk(k: nat)
    ensures D.ElementOk(PLAIN, Chain(k))
    decreases k
  {
    if k > 0 { ChainOk(k - 1); }
  }

  lemma {:induction false} ChainRoom(k: nat, open: nat, height: nat, depth: nat)
    requires D.ElementRoom(Chain(k), open, height, 1, depth)
    ensures height + k < depth
    decreases k
  {
    if k > 0 {
      assert D.Child(Chain(k - 1)) in [D.Child(Chain(k - 1))];
      assert D.NodeRoom(D.Child(Chain(k - 1)), open + 1, height + 1, 1, depth);
      ChainRoom(k - 1, open + 1, height + 1, depth);
    }
  }

  /** Seven elements a inside each other take 44 bits and are refused, and so is every larger number of them. */
  lemma DeepRefused(k: nat)
    requires 5 <= k < 0x1000_0000
    ensures D.DocOk(PLAIN, Deep(k)) && |Encoded(PLAIN, Deep(k))| == (41 + 2 * k) / 8
    ensures Decoding(PLAIN, Deep(k)) == None
  {
    hide Decoding; hide D.DocWords; hide D.Spell; hide Chain; hide D.ElementOk; hide D.ElementRoom;
    DeepBits(k);
    DeepOk(k);
    EncodedDecodes(PLAIN, Deep(k));
    if D.DocRoom(Deep(k), |Encoded(PLAIN, Deep(k))| + 1) {
      DeepRoom(k, |Encoded(PLAIN, Deep(k))| + 1);
    }
  }

  lemma DeepOk(k: nat)
    ensures D.DocOk(PLAIN, Deep(k))
  {
    hide Chain;
    ChainOk(k);
    DeepIs(k);
  }

  lemma DeepIs(k: nat)
    requires D.ElementOk(PLAIN, Chain(k))
    ensures D.DocOk(PLAIN, Deep(k))
  {
    hide Chain; hide D.BodyOk;
    var root := Deep(k).root;
    assert root.tag == [];
    assert D.NodeOk(PLAIN, D.Child(Chain(k)), false);
    assert D.BodyOk(PLAIN, NAME, root.body) by { OneChild(k); }
  }

  lemma OneChild(k: nat)
    requires D.NodeOk(PLAIN, D.Child(Chain(k)), false)
    ensures D.BodyOk(PLAIN, NAME, D.Children([D.Child(Chain(k))]))
  {
    hide Chain;
  }

  lemma DeepRoom(k: nat, depth: nat)
    requires D.DocRoom(Deep(k), depth)
    ensures k + 2 < depth
  {
    hide Chain;
    var nodes := [D.Child(Chain(k))];
    assert D.BodyRoom(D.NilBy([]), D.Children(nodes), 1, 2, 1, depth);
    assert nodes[0] in nodes;
    assert D.NodeRoom(nodes[0], 1, 2, 1, depth);
    ChainRoom(k, 1, 2, depth);
  }
}
