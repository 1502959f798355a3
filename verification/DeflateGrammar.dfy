// Compressed data as the format states it: literals and matches spelled with the two codes of a block,
// then the end-of-block symbol. The scanner stops exactly where such a spelling ends.
module DeflateGrammar {
  import opened Common
  import opened DeflateBits
  import opened DeflateFormat
  import opened DeflateWords
  import opened Huffman
  import opened DeflateScan

  /** The table of a code, and the code word of a symbol in it. */
  lemma WordDecodes(data: seq<byte>, pos: nat, lengths: seq<nat>, symbol: nat)
    requires IsCode(lengths)
    ensures Word(data, pos, lengths, symbol) <==>
              symbol < |lengths| && DecodeSymbol(data, pos, Entries(lengths, |lengths|)) == Some((symbol, pos + lengths[symbol]))
  {
    hide IsCode; hide Reads; hide Entries; hide DecodeSymbol; hide Accepted;
    CodeIsAccepted(lengths);
    if symbol < |lengths| {
      WordIs(data, pos, lengths, symbol);
      DecodeInverts(data, pos, lengths, symbol);
    } else {
      hide Word;
      NoWord(data, pos, lengths, symbol);
    }
  }

  lemma NoWord(data: seq<byte>, pos: nat, lengths: seq<nat>, symbol: nat)
    requires symbol >= |lengths|
    ensures !Word(data, pos, lengths, symbol)
  {
  }

  /** Whatever is decoded is a code word that stands there. */
  lemma DecodedWord(data: seq<byte>, pos: nat, lengths: seq<nat>)
    requires IsCode(lengths) && DecodeSymbol(data, pos, Entries(lengths, |lengths|)).Some?
    ensures var r := DecodeSymbol(data, pos, Entries(lengths, |lengths|)).value;
      r.0 < |lengths| && Word(data, pos, lengths, r.0) && r.1 == pos + lengths[r.0]
  {
    hide IsCode; hide Reads; hide Entries; hide Word;
    DecodeFromSound(data, pos, lengths, 1);
    WordIs(data, pos, lengths, DecodeSymbol(data, pos, Entries(lengths, |lengths|)).value.0);
  }

  /** The tables of extra bits. */
  lemma LengthBitsAre(symbol: nat)
    requires 257 <= symbol <= 285
    ensures LENGTH_BITS[symbol - 257] == LengthExtra(symbol)
  {
  }

  lemma DistanceBitsAre(symbol: nat)
    requires symbol <= 29
    ensures DISTANCE_BITS[symbol] == DistanceExtra(symbol)
  {
  }

  lemma MatchSkipped(data: seq<byte>, pos: nat, length: nat, distance: nat, literals: seq<nat>, distances: seq<nat>, end: nat)
    requires IsCode(literals) && IsCode(distances) && SymbolAt(data, pos, Match(length, distance), literals, distances, end)
    ensures DecodeSymbol(data, pos, Entries(literals, |literals|)) == Some((length, pos + literals[length]))
    ensures SkipMatch(data, pos + literals[length], length, Entries(distances, |distances|)) == Some(end)
  {
    hide IsCode; hide Entries; hide DecodeSymbol; hide LengthExtra; hide DistanceExtra; hide LENGTH_BITS; hide DISTANCE_BITS;
    hide BitsValue;
    LengthBitsAre(length);
    DistanceBitsAre(distance);
    WordDecodes(data, pos, literals, length);
    WordDecodes(data, pos + literals[length] + LengthExtra(length), distances, distance);
  }

  lemma {:induction false} SpelledIsSkipped(data: seq<byte>, pos: nat, symbols: seq<Symbol>, literals: seq<nat>,
                                            distances: seq<nat>, end: nat)
    requires IsCode(literals) && IsCode(distances) && SymbolsAt(data, pos, symbols, literals, distances, end)
    ensures SkipBlock(data, pos, Entries(literals, |literals|), Entries(distances, |distances|)) == Some(end)
    decreases |symbols|
  {
    hide IsCode; hide Word; hide Entries; hide DecodeSymbol; hide LengthExtra; hide DistanceExtra; hide SkipMatch;
    hide LENGTH_BITS; hide DISTANCE_BITS;
    if |symbols| == 0 {
      WordDecodes(data, pos, literals, 256);
    } else {
      var next: nat :| SymbolAt(data, pos, symbols[0], literals, distances, next)
                       && SymbolsAt(data, next, symbols[1..], literals, distances, end);
      match symbols[0]
      case Literal(value) =>
        WordDecodes(data, pos, literals, value);
        SpelledIsSkipped(data, next, symbols[1..], literals, distances, end);
      case Match(length, distance) =>
        MatchSkipped(data, pos, length, distance, literals, distances, next);
        SpelledIsSkipped(data, next, symbols[1..], literals, distances, end);
    }
  }

  lemma SkippedMatch(data: seq<byte>, pos: nat, length: nat, literals: seq<nat>, distances: seq<nat>) returns (distance: nat)
    requires IsCode(distances) && length < |literals| && Word(data, pos, literals, length) && 257 <= length <= 285
    requires SkipMatch(data, pos + literals[length], length, Entries(distances, |distances|)).Some?
    ensures SymbolAt(data, pos, Match(length, distance), literals, distances,
                     SkipMatch(data, pos + literals[length], length, Entries(distances, |distances|)).value)
  {
    hide IsCode; hide Word; hide Entries; hide DecodeSymbol; hide LengthExtra; hide DistanceExtra; hide LENGTH_BITS; hide DISTANCE_BITS;
    var middle := pos + literals[length] + LengthExtra(length);
    DecodedWord(data, middle, distances);
    distance := DecodeSymbol(data, middle, Entries(distances, |distances|)).value.0;
    LengthBitsAre(length);
    DistanceBitsAre(distance);
  }

  lemma {:induction false} SkippedIsSpelled(data: seq<byte>, pos: nat, literals: seq<nat>,
                                            distances: seq<nat>) returns (symbols: seq<Symbol>)
    requires IsCode(literals) && IsCode(distances)
    requires SkipBlock(data, pos, Entries(literals, |literals|), Entries(distances, |distances|)).Some?
    ensures SymbolsAt(data, pos, symbols, literals, distances,
                      SkipBlock(data, pos, Entries(literals, |literals|), Entries(distances, |distances|)).value)
    decreases 8 * |data| - pos
  {
    hide IsCode; hide Word; hide Entries; hide DecodeSymbol; hide LengthExtra; hide DistanceExtra; hide SkipMatch;
    hide LENGTH_BITS; hide DISTANCE_BITS;
    var s := DecodeSymbol(data, pos, Entries(literals, |literals|)).value;
    var end := SkipBlock(data, pos, Entries(literals, |literals|), Entries(distances, |distances|)).value;
    DecodedWord(data, pos, literals);
    if s.0 < 256 {
      var rest := SkippedIsSpelled(data, s.1, literals, distances);
      symbols := [Literal(s.0)] + rest;
      MoreSymbols(data, pos, Literal(s.0), rest, literals, distances, s.1, end);
    } else if s.0 == 256 {
      symbols := [];
    } else {
      var distance := SkippedMatch(data, pos, s.0, literals, distances);
      var next := SkipMatch(data, s.1, s.0, Entries(distances, |distances|)).value;
      var rest := SkippedIsSpelled(data, next, literals, distances);
      symbols := [Match(s.0, distance)] + rest;
      MoreSymbols(data, pos, Match(s.0, distance), rest, literals, distances, next, end);
    }
  }

  lemma MoreSymbols(data: seq<byte>, pos: nat, t: Symbol, rest: seq<Symbol>, literals: seq<nat>, distances: seq<nat>, next: nat, end: nat)
    requires SymbolAt(data, pos, t, literals, distances, next) && SymbolsAt(data, next, rest, literals, distances, end)
    ensures SymbolsAt(data, pos, [t] + rest, literals, distances, end)
  {
    hide SymbolAt;
    assert ([t] + rest)[1..] == rest;
  }

  /** The scanner accepts compressed data exactly when it spells literals and matches, and stops exactly behind them. */
  lemma SkipIsGrammar(data: seq<byte>, pos: nat, literals: seq<nat>, distances: seq<nat>, end: nat)
    requires IsCode(literals) && IsCode(distances)
    ensures SkipBlock(data, pos, Entries(literals, |literals|), Entries(distances, |distances|)) == Some(end)
       <==> exists symbols :: SymbolsAt(data, pos, symbols, literals, distances, end)
  {
    hide IsCode; hide Entries; hide SkipBlock; hide SymbolsAt;
    if SkipBlock(data, pos, Entries(literals, |literals|), Entries(distances, |distances|)) == Some(end) {
      var symbols := SkippedIsSpelled(data, pos, literals, distances);
    } else if symbols :| SymbolsAt(data, pos, symbols, literals, distances, end) {
      SpelledIsSkipped(data, pos, symbols, literals, distances, end);
    }
  }

  /** What section 3.2.7 of RFC 1951 asks of a distance code: it may be empty when the block has no matches. */
  ghost predicate DistanceCode(lengths: seq<nat>) {
    (forall k :: 0 <= k < |lengths| ==> lengths[k] <= MAX_CODE_LENGTH) && Kraft(lengths, |lengths|) <= Pow2(MAX_CODE_LENGTH)
  }

  lemma {:induction false} AllUnused(lengths: seq<nat>, n: nat)
    requires n <= |lengths| && forall k :: 0 <= k < |lengths| ==> lengths[k] == 0
    ensures Kraft(lengths, n) == 0
  {
    if n > 0 { AllUnused(lengths, n - 1); }
  }

  /** The empty distance code of a block without matches is a distance code, but it is refused. */
  lemma EmptyDistancesRefused(n: nat)
    ensures var lengths := Repeat(0, n); DistanceCode(lengths) && !Accepted(lengths)
  {
    var lengths := Repeat(0, n);
    AllUnused(lengths, |lengths|);
  }

  /**
   * A header whose parts are all in order is accepted exactly when some distance has a code: the scanner
   * refuses every dynamic block that uses literals only and says so with an empty distance code.
   */
  lemma HeaderAccepted(data: seq<byte>, pos: nat, literals: nat, distances: nat, count: nat)
    requires 257 <= literals <= 286 && distances <= 32 && count <= 19
    requires LengthCodes(data, pos, count).Some? && Accepted(LengthCodes(data, pos, count).value)
    requires Lengths(data, pos + 3 * count, Entries(LengthCodes(data, pos, count).value, 19), literals + distances, []).Some?
    requires var all := Lengths(data, pos + 3 * count, Entries(LengthCodes(data, pos, count).value, 19),
               literals + distances, []).value.0;
      all[256] != 0 && Accepted(all[..literals]) && DistanceCode(all[literals..])
    ensures var all := Lengths(data, pos + 3 * count, Entries(LengthCodes(data, pos, count).value, 19), literals + distances, []).value.0;
      TreesOf(data, pos, literals, distances, count).Some? <==> exists d :: literals <= d < literals + distances && all[d] != 0
  {
    hide Lengths; hide LengthCodes; hide Entries; hide Kraft;
    var all := Lengths(data, pos + 3 * count, Entries(LengthCodes(data, pos, count).value, 19), literals + distances, []).value.0;
    var used := all[literals..];
    if d :| literals <= d < literals + distances && all[d] != 0 { assert used[d - literals] != 0; }
    if k :| 0 <= k < |used| && used[k] != 0 { assert all[literals + k] != 0; }
  }
}
