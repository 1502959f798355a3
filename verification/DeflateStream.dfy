// Whole streams: the scanner finds a length exactly when the data begins with a stream of the format, and that one.
module DeflateStream {
  import opened Common
  import opened Arithmetic
  import opened DeflateBits
  import opened DeflateFormat
  import opened DeflateWords
  import opened Huffman
  import opened DeflateScan
  import opened DeflateGrammar
  import opened DeflateHeader

  //
  // Stored blocks
  //

  predicate OppositeAt(a: nat, b: nat, k: nat) {
    a / Pow2(k) % 2 + b / Pow2(k) % 2 == 1
  }

  /** Two numbers fill n bits exactly when they differ in every one of them. */
  lemma {:induction false} Complements(a: nat, b: nat, n: nat)
    requires a < Pow2(n) && b < Pow2(n)
    ensures a + b == Pow2(n) - 1 <==> forall k: nat :: k < n ==> OppositeAt(a, b, k)
    decreases n
  {
    if n > 0 {
      Complements(a / 2, b / 2, n - 1);
      if forall k: nat :: k < n ==> OppositeAt(a, b, k) {
        forall k: nat | k < n - 1
          ensures OppositeAt(a / 2, b / 2, k)
        {
          assert OppositeAt(a, b, k + 1);
          DivTwice(a, Pow2(k));
          DivTwice(b, Pow2(k));
        }
        assert OppositeAt(a, b, 0);
      }
      if a + b == Pow2(n) - 1 {
        forall k: nat | k < n
          ensures OppositeAt(a, b, k)
        {
          if k > 0 {
            assert OppositeAt(a / 2, b / 2, k - 1);
            DivTwice(a, Pow2(k - 1));
            DivTwice(b, Pow2(k - 1));
          }
        }
      }
    }
  }

  lemma Sixteen()
    ensures Pow2(16) == 0x1_0000
  {
    Pow2Add(8, 8);
    assert Pow2(8) == 256;
  }

  /** The complement, read as a number and bit by bit. */
  lemma ComplementIs(data: seq<byte>, at: nat, count: nat, inverse: nat)
    requires Field(data, at, 16, count) && Field(data, at + 16, 16, inverse)
    ensures count + inverse == 0xffff <==> forall k: nat :: k < 16 ==> Opposite(data, at, k)
  {
    hide BitOf; hide Pow2;
    Sixteen();
    Complements(count, inverse, 16);
    forall k: nat | k < 16
      ensures Opposite(data, at, k) <==> OppositeAt(count, inverse, k)
    {
      assert FieldBit(data, at, count, k) && FieldBit(data, at + 16, inverse, k);
    }
  }

  lemma AlignedOnce(pos: nat, at: nat)
    requires at % 8 == 0 && pos <= at < pos + 8
    ensures at == Aligned(pos)
  {
  }

  lemma StoredIs(data: seq<byte>, pos: nat, end: nat)
    ensures SkipStored(data, pos) == Some(end) <==> exists count: nat :: StoredAt(data, pos, count, end)
  {
    hide BitsValue; hide Field; hide Opposite;
    var at := Aligned(pos);
    if count: nat :| StoredAt(data, pos, count, end) {
      var there: nat :| there % 8 == 0 && pos <= there < pos + 8 && there + 32 <= 8 * |data| && Field(data, there, 16, count)
        && (forall k: nat :: k < 16 ==> Opposite(data, there, k)) && end == there + 32 + 8 * count && end <= 8 * |data|;
      AlignedOnce(pos, there);
      var inverse := BitsValue(data, at + 16, 16);
      FieldIs(data, at, 16, count);
      FieldIs(data, at + 16, 16, inverse);
      ComplementIs(data, at, count, inverse);
    }
    if SkipStored(data, pos) == Some(end) {
      var count, inverse := BitsValue(data, at, 16), BitsValue(data, at + 16, 16);
      FieldIs(data, at, 16, count);
      FieldIs(data, at + 16, 16, inverse);
      ComplementIs(data, at, count, inverse);
      assert StoredAt(data, pos, count, end);
    }
  }

  //
  // Compressed blocks
  //

  lemma FixedOnce(literals: seq<nat>, distances: seq<nat>)
    requires IsFixed(literals, distances)
    ensures literals == FixedLiterals() && distances == FixedDistances()
  {
    FixedSizes();
  }

  lemma FixedIs(data: seq<byte>, pos: nat, end: nat)
    ensures SkipBlock(data, pos, Entries(FixedLiterals(), 288), Entries(FixedDistances(), 32)) == Some(end)
       <==> exists symbols :: FixedAt(data, pos, symbols, end)
  {
    hide SymbolsAt; hide Entries; hide SkipBlock; hide FixedLiterals; hide FixedDistances; hide Accepted; hide IsCode; hide Kraft;
    var a, b := FixedLiterals(), FixedDistances();
    FixedSizes();
    FixedAccepted();
    CodeIsAccepted(a);
    CodeIsAccepted(b);
    FixedFixed();
    SkipIsGrammar(data, pos, a, b, end);
    if symbols :| FixedAt(data, pos, symbols, end) {
      var literals, distances :| IsFixed(literals, distances) && SymbolsAt(data, pos, symbols, literals, distances, end);
      FixedOnce(literals, distances);
      assert SymbolsAt(data, pos, symbols, a, b, end);
    }
    if SkipBlock(data, pos, Entries(a, |a|), Entries(b, |b|)) == Some(end) {
      var symbols :| SymbolsAt(data, pos, symbols, a, b, end);
      FixedStands(data, pos, symbols, a, b, end);
    }
  }

  lemma FixedStands(data: seq<byte>, pos: nat, symbols: seq<Symbol>, literals: seq<nat>, distances: seq<nat>, end: nat)
    requires IsFixed(literals, distances) && SymbolsAt(data, pos, symbols, literals, distances, end)
    ensures FixedAt(data, pos, symbols, end)
  {
    hide SymbolsAt;
  }

  lemma FixedFixed()
    ensures IsFixed(FixedLiterals(), FixedDistances())
  {
    FixedSizes();
  }

  /** The scanner skips a dynamic block from pos on to end. */
  ghost predicate DynamicSkipped(data: seq<byte>, pos: nat, end: nat) {
    match DynamicTrees(data, pos)
    case None => false
    case Some(t) => SkipBlock(data, t.end, Entries(t.literals, |t.literals|), Entries(t.distances, |t.distances|)) == Some(end)
  }

  lemma DynamicIsSkipped(data: seq<byte>, pos: nat, h: Header, symbols: seq<Symbol>, end: nat)
    requires DynamicAt(data, pos, h, symbols, end)
    ensures DynamicSkipped(data, pos, end)
  {
    hide SymbolsAt; hide Entries; hide SkipBlock; hide Accepted; hide IsCode; hide HeaderAt; hide DynamicTrees;
    var middle: nat :| HeaderAt(data, pos, h, middle) && SymbolsAt(data, middle, symbols, h.literals, h.distances, end);
    HeaderCodes(data, pos, h, middle);
    var t := Trees(h.literals, h.distances, middle);
    assert HeaderAt(data, pos, h, t.end);
    HeaderIsGrammar(data, pos, t);
    SpelledIsSkipped(data, middle, symbols, h.literals, h.distances, end);
    assert SkipBlock(data, t.end, Entries(t.literals, |t.literals|), Entries(t.distances, |t.distances|)) == Some(end);
  }

  lemma SkippedIsDynamic(data: seq<byte>, pos: nat, end: nat) returns (h: Header, symbols: seq<Symbol>)
    requires DynamicSkipped(data, pos, end)
    ensures DynamicAt(data, pos, h, symbols, end)
  {
    hide SymbolsAt; hide Entries; hide SkipBlock; hide Accepted; hide IsCode; hide HeaderAt; hide DynamicTrees;
    var t := DynamicTrees(data, pos).value;
    HeaderIsGrammar(data, pos, t);
    h :| HeaderAt(data, pos, h, t.end) && h.literals == t.literals && h.distances == t.distances;
    HeaderCodes(data, pos, h, t.end);
    SkipIsGrammar(data, t.end, t.literals, t.distances, end);
    symbols :| SymbolsAt(data, t.end, symbols, t.literals, t.distances, end);
    DynamicStands(data, pos, h, t.end, symbols, end);
  }

  lemma DynamicIs(data: seq<byte>, pos: nat, end: nat)
    ensures DynamicSkipped(data, pos, end) <==> exists h, symbols :: DynamicAt(data, pos, h, symbols, end)
  {
    hide DynamicAt; hide DynamicSkipped;
    if DynamicSkipped(data, pos, end) {
      var h, symbols := SkippedIsDynamic(data, pos, end);
    }
    if h, symbols :| DynamicAt(data, pos, h, symbols, end) {
      DynamicIsSkipped(data, pos, h, symbols, end);
    }
  }

  lemma DynamicStands(data: seq<byte>, pos: nat, h: Header, middle: nat, symbols: seq<Symbol>, end: nat)
    requires HeaderAt(data, pos, h, middle) && SymbolsAt(data, middle, symbols, h.literals, h.distances, end)
    ensures DynamicAt(data, pos, h, symbols, end)
  {
    hide SymbolsAt; hide HeaderAt;
  }

  lemma HeaderCodes(data: seq<byte>, pos: nat, h: Header, end: nat)
    requires HeaderAt(data, pos, h, end)
    ensures IsCode(h.literals) && IsCode(h.distances)
  {
  }

  //
  // Blocks
  //

  /** The body of a block of this kind. */
  ghost predicate BodyAt(data: seq<byte>, pos: nat, b: Block, kind: nat, end: nat) {
    match b
    case Stored(count) => kind == 0 && StoredAt(data, pos, count, end)
    case Fixed(symbols) => kind == 1 && FixedAt(data, pos, symbols, end)
    case Dynamic(h, symbols) => kind == 2 && DynamicAt(data, pos, h, symbols, end)
  }

  lemma BodyIs(data: seq<byte>, pos: nat, kind: nat, end: nat)
    requires kind < 4
    ensures SkipBody(data, pos, kind) == Some(end) <==> exists b :: BodyAt(data, pos, b, kind, end)
  {
    hide StoredAt; hide FixedAt; hide DynamicAt; hide SkipStored; hide SkipBlock; hide Entries; hide FixedLiterals; hide FixedDistances;
    hide DynamicTrees; hide Accepted;
    FixedSizes();
    FixedTrees();
    StoredIs(data, pos, end);
    FixedIs(data, pos, end);
    DynamicIs(data, pos, end);
    if SkipBody(data, pos, kind) == Some(end) {
      if kind == 0 {
        var count: nat :| StoredAt(data, pos, count, end);
        assert BodyAt(data, pos, Stored(count), kind, end);
      } else if kind == 1 {
        var symbols :| FixedAt(data, pos, symbols, end);
        assert BodyAt(data, pos, Fixed(symbols), kind, end);
      } else {
        var h, symbols :| DynamicAt(data, pos, h, symbols, end);
        assert BodyAt(data, pos, Dynamic(h, symbols), kind, end);
      }
    }
  }

  lemma FixedTrees()
    ensures Accepted(FixedLiterals()) && Accepted(FixedDistances())
  {
    hide Accepted; hide FixedLiterals; hide FixedDistances; hide Kraft;
    FixedAccepted();
  }

  function KindOf(b: Block): nat {
    match b
    case Stored(_) => 0
    case Fixed(_) => 1
    case Dynamic(_, _) => 2
  }

  /** A block is its three bits and its body. */
  lemma BlockIs(data: seq<byte>, pos: nat, last: bool, b: Block, end: nat)
    ensures BlockAt(data, pos, last, b, end) <==>
              && BitsRead(data, pos, 1) == Some((if last then 1 else 0, pos + 1))
              && BitsRead(data, pos + 1, 2) == Some((KindOf(b), pos + 3)) && BodyAt(data, pos + 3, b, KindOf(b), end)
  {
    hide StoredAt; hide FixedAt; hide DynamicAt; hide Field; hide BitsValue;
    FieldIs(data, pos, 1, if last then 1 else 0);
    FieldIs(data, pos + 1, 2, KindOf(b));
  }

  lemma BodyEnds(data: seq<byte>, pos: nat, b: Block, kind: nat, end: nat)
    requires BodyAt(data, pos, b, kind, end)
    ensures kind < 4 && kind == KindOf(b) && SkipBody(data, pos, kind) == Some(end) && pos < end <= 8 * |data|
  {
    hide StoredAt; hide FixedAt; hide DynamicAt; hide SkipBody;
    BodyIs(data, pos, kind, end);
  }

  lemma {:induction false} BlocksRead(data: seq<byte>, pos: nat, blocks: seq<Block>, end: nat)
    requires BlocksAt(data, pos, blocks, end)
    ensures Blocks(data, pos) == Some(end)
    decreases |blocks|
  {
    hide BlockAt; hide BitsValue; hide SkipBody; hide BodyAt;
    if |blocks| == 1 {
      BlockIs(data, pos, true, blocks[0], end);
      BodyEnds(data, pos + 3, blocks[0], KindOf(blocks[0]), end);
    } else {
      var next: nat :| BlockAt(data, pos, false, blocks[0], next) && BlocksAt(data, next, blocks[1..], end);
      BlockIs(data, pos, false, blocks[0], next);
      BodyEnds(data, pos + 3, blocks[0], KindOf(blocks[0]), next);
      BlocksRead(data, next, blocks[1..], end);
    }
  }

  lemma {:induction false} BlocksOf(data: seq<byte>, pos: nat) returns (blocks: seq<Block>)
    requires Blocks(data, pos).Some?
    ensures BlocksAt(data, pos, blocks, Blocks(data, pos).value)
    decreases 8 * |data| - pos
  {
    hide BlockAt; hide BitsValue; hide SkipBody; hide BodyAt;
    var final, kind := BitsRead(data, pos, 1).value.0, BitsRead(data, pos + 1, 2).value.0;
    Small();
    var next := SkipBody(data, pos + 3, kind).value;
    BodyIs(data, pos + 3, kind, next);
    var b :| BodyAt(data, pos + 3, b, kind, next);
    BodyEnds(data, pos + 3, b, kind, next);
    BlockIs(data, pos, final != 0, b, next);
    if final != 0 {
      blocks := [b];
      OneBlock(data, pos, b, next);
    } else {
      var rest := BlocksOf(data, next);
      blocks := [b] + rest;
      MoreBlocks(data, pos, b, next, rest, Blocks(data, pos).value);
    }
  }

  lemma OneBlock(data: seq<byte>, pos: nat, b: Block, end: nat)
    requires BlockAt(data, pos, true, b, end)
    ensures BlocksAt(data, pos, [b], end)
  {
    hide BlockAt;
  }

  lemma MoreBlocks(data: seq<byte>, pos: nat, b: Block, next: nat, rest: seq<Block>, end: nat)
    requires BlockAt(data, pos, false, b, next) && BlocksAt(data, next, rest, end)
    ensures BlocksAt(data, pos, [b] + rest, end)
  {
    hide BlockAt;
    var all := [b] + rest;
    assert all[1..] == rest && |rest| > 0;
  }

  lemma Small()
    ensures Pow2(1) == 2 && Pow2(2) == 4
  {
  }

  /**
   * The scanner finds a length exactly when the data begins with a stream of the format, and finds the bytes
   * that stream takes.
   */
  lemma StreamIsFormat(data: seq<byte>, bytes: nat)
    ensures StreamLength(data) == Some(bytes) <==> exists blocks :: StreamAt(data, blocks, bytes)
  {
    hide Blocks; hide BlocksAt;
    if blocks :| StreamAt(data, blocks, bytes) {
      var end: nat :| BlocksAt(data, 0, blocks, end) && end <= 8 * bytes < end + 8;
      BlocksRead(data, 0, blocks, end);
      AlignedOnce(end, 8 * bytes);
    }
    if StreamLength(data) == Some(bytes) {
      var end := Blocks(data, 0).value;
      var blocks := BlocksOf(data, 0);
      assert BlocksAt(data, 0, blocks, end) && end <= 8 * bytes < end + 8;
      assert StreamAt(data, blocks, bytes);
    }
  }
}
