// The DEFLATE format as RFC 1951 states it, said of the bits of the data alone: numbers, code words, the
// header of a dynamic block, blocks and streams.
module DeflateFormat {
  import opened Common

  /** Bit k of the data: bytes in order, bits of a byte from the low end (section 3.1.1). */
  function BitOf(data: seq<byte>, k: nat): nat
    requires k < 8 * |data|
  {
    data[k / 8] / Pow2(k % 8) % 2
  }

  /** The number v in n bits, lowest bit first. */
  ghost predicate Field(data: seq<byte>, pos: nat, n: nat, v: nat) {
    pos + n <= 8 * |data| && v < Pow2(n) && forall k: nat :: k < n ==> FieldBit(data, pos, v, k)
  }

  predicate FieldBit(data: seq<byte>, pos: nat, v: nat, k: nat) {
    pos + k < 8 * |data| && BitOf(data, pos + k) == v / Pow2(k) % 2
  }

  //
  // Code words (section 3.2.2)
  //

  const LONGEST: nat := 15

  /** Symbol s has a code word before the one of symbol t: a shorter one, or one as long and s is smaller. */
  predicate Precedes(lengths: seq<nat>, s: nat, t: nat)
    requires s < |lengths| && t < |lengths|
  {
    lengths[s] > 0 && (lengths[s] < lengths[t] || (lengths[s] == lengths[t] && s < t))
  }

  /** The code space, of size 2 to the 15, that the code words before the one of t take among the first n symbols. */
  function Ahead(lengths: seq<nat>, t: nat, n: nat): nat
    requires t < |lengths| && n <= |lengths|
  {
    if n == 0 then 0
    else Ahead(lengths, t, n - 1) + if Precedes(lengths, n - 1, t) && lengths[n - 1] <= LONGEST then Pow2(LONGEST - lengths[n - 1]) else 0
  }

  /** The code word of a symbol stands at pos, first bit highest: it begins where the ones before it end. */
  ghost predicate Word(data: seq<byte>, pos: nat, lengths: seq<nat>, symbol: nat) {
    && symbol < |lengths| && 0 < lengths[symbol] <= LONGEST && pos + lengths[symbol] <= 8 * |data|
    && forall k: nat :: k < lengths[symbol] ==> WordBit(data, pos, Ahead(lengths, symbol, |lengths|), k)
  }

  predicate WordBit(data: seq<byte>, pos: nat, start: nat, k: nat) {
    k < LONGEST && pos + k < 8 * |data| && BitOf(data, pos + k) == start / Pow2(LONGEST - 1 - k) % 2
  }

  /** The code space all code words of the first n symbols take. */
  function Space(lengths: seq<nat>, n: nat): nat
    requires n <= |lengths|
  {
    if n == 0 then 0
    else Space(lengths, n - 1) + if 0 < lengths[n - 1] <= LONGEST then Pow2(LONGEST - lengths[n - 1]) else 0
  }

  /** Lengths some code has, with at least one code word. */
  ghost predicate IsCode(lengths: seq<nat>) {
    && (forall k :: 0 <= k < |lengths| ==> lengths[k] <= LONGEST)
    && (exists k :: 0 <= k < |lengths| && lengths[k] != 0)
    && Space(lengths, |lengths|) <= Pow2(LONGEST)
  }

  //
  // Literals and matches (section 3.2.5)
  //

  const LENGTH_BITS: seq<nat> :=
    [0, 0, 0, 0, 0, 0, 0, 0, 1, 1, 1, 1, 2, 2, 2, 2, 3, 3, 3, 3, 4, 4, 4, 4, 5, 5, 5, 5, 0]

  const DISTANCE_BITS: seq<nat> :=
    [0, 0, 0, 0, 1, 1, 2, 2, 3, 3, 4, 4, 5, 5, 6, 6, 7, 7, 8, 8, 9, 9, 10, 10, 11, 11, 12, 12, 13, 13]

  datatype Symbol = Literal(value: nat) | Match(length: nat, distance: nat)

  /** One literal, or a length symbol, its extra bits, a distance symbol and its extra bits. */
  ghost predicate SymbolAt(data: seq<byte>, pos: nat, t: Symbol, literals: seq<nat>, distances: seq<nat>, end: nat) {
    match t
    case Literal(value) => value < 256 && Word(data, pos, literals, value) && end == pos + literals[value]
    case Match(length, distance) =>
      && 257 <= length <= 285 && distance <= 29 && Word(data, pos, literals, length)
      && var middle := pos + literals[length] + LENGTH_BITS[length - 257];
         && Word(data, middle, distances, distance)
         && end == middle + distances[distance] + DISTANCE_BITS[distance] && end <= 8 * |data|
  }

  /** Literals and matches, then the end-of-block symbol. */
  ghost predicate SymbolsAt(data: seq<byte>, pos: nat, symbols: seq<Symbol>, literals: seq<nat>, distances: seq<nat>, end: nat)
    decreases |symbols|
  {
    if |symbols| == 0 then Word(data, pos, literals, 256) && end == pos + literals[256]
    else
      exists next: nat ::
        SymbolAt(data, pos, symbols[0], literals, distances, next) && SymbolsAt(data, next, symbols[1..], literals, distances, end)
  }

  //
  // The header of a dynamic block (section 3.2.7)
  //

  /** The order in which the lengths of the code-length code are sent. */
  const ORDER: seq<nat> := [16, 17, 18, 0, 8, 7, 9, 6, 10, 5, 11, 4, 12, 3, 13, 2, 14, 1, 15]

  /** A length, three to six copies of the last one, three to ten zeros, or 11 to 138 zeros. */
  datatype Run = Plain(length: nat) | CopyLast(count: nat) | ShortZeros(count: nat) | LongZeros(count: nat)

  predicate RunOk(r: Run) {
    match r
    case Plain(length) => length <= 15
    case CopyLast(count) => 3 <= count <= 6
    case ShortZeros(count) => 3 <= count <= 10
    case LongZeros(count) => 11 <= count <= 138
  }

  /** The lengths r adds behind those before it. */
  function Added(r: Run, before: seq<nat>): Option<seq<nat>> {
    match r
    case Plain(length) => Some([length])
    case CopyLast(count) => if before == [] then None else Some(seq(count, _ => before[|before| - 1]))
    case ShortZeros(count) => Some(seq(count, _ => 0))
    case LongZeros(count) => Some(seq(count, _ => 0))
  }

  /** The lengths the runs stand for, behind those before them. */
  function Expanded(runs: seq<Run>, before: seq<nat>): Option<seq<nat>> {
    if |runs| == 0 then Some(before)
    else
      match Added(runs[0], before)
      case None => None
      case Some(more) => Expanded(runs[1..], before + more)
  }

  /** A run: its symbol's code word and its count in extra bits. */
  ghost predicate RunAt(data: seq<byte>, pos: nat, r: Run, codes: seq<nat>, end: nat) {
    && RunOk(r)
    && match r
       case Plain(length) => Word(data, pos, codes, length) && end == pos + codes[length]
       case CopyLast(count) =>
         Word(data, pos, codes, 16) && Field(data, pos + codes[16], 2, count - 3) && end == pos + codes[16] + 2
       case ShortZeros(count) =>
         Word(data, pos, codes, 17) && Field(data, pos + codes[17], 3, count - 3) && end == pos + codes[17] + 3
       case LongZeros(count) =>
         Word(data, pos, codes, 18) && Field(data, pos + codes[18], 7, count - 11) && end == pos + codes[18] + 7
  }

  ghost predicate RunsAt(data: seq<byte>, pos: nat, runs: seq<Run>, codes: seq<nat>, end: nat)
    decreases |runs|
  {
    if |runs| == 0 then end == pos
    else exists next: nat :: RunAt(data, pos, runs[0], codes, next) && RunsAt(data, next, runs[1..], codes, end)
  }

  /** The lengths of the code-length code: those sent in their order, the others zero. */
  ghost predicate SentAs(sent: seq<nat>, codes: seq<nat>) {
    && |codes| == 19 && |sent| <= 19
    && forall i :: 0 <= i < 19 ==> codes[ORDER[i]] == if i < |sent| then sent[i] else 0
  }

  /** What a dynamic block says before its symbols. */
  datatype Header = Header(sent: seq<nat>, codes: seq<nat>, runs: seq<Run>, literals: seq<nat>, distances: seq<nat>)

  ghost predicate HeaderOk(h: Header) {
    && 4 <= |h.sent| <= 19 && SentAs(h.sent, h.codes) && IsCode(h.codes)
    && 257 <= |h.literals| <= 286 && 1 <= |h.distances| <= 32
    && Expanded(h.runs, []) == Some(h.literals + h.distances)
    && h.literals[256] != 0 && IsCode(h.literals) && IsCode(h.distances)
  }

  ghost predicate HeaderAt(data: seq<byte>, pos: nat, h: Header, end: nat) {
    && HeaderOk(h)
    && Field(data, pos, 5, |h.literals| - 257) && Field(data, pos + 5, 5, |h.distances| - 1) && Field(data, pos + 10, 4, |h.sent| - 4)
    && (forall i: nat :: i < |h.sent| ==> Field(data, pos + 14 + 3 * i, 3, h.sent[i]))
    && RunsAt(data, pos + 14 + 3 * |h.sent|, h.runs, h.codes, end)
  }

  //
  // Blocks and streams (sections 3.2.3, 3.2.4 and 3.2.6)
  //

  datatype Block = Stored(count: nat) | Fixed(symbols: seq<Symbol>) | Dynamic(header: Header, symbols: seq<Symbol>)

  predicate IsFixed(literals: seq<nat>, distances: seq<nat>) {
    && |literals| == 288 && |distances| == 32
    && (forall k :: 0 <= k < 288 ==> literals[k] == if k <= 143 then 8 else if k <= 255 then 9 else if k <= 279 then 7 else 8)
    && (forall k :: 0 <= k < 32 ==> distances[k] == 5)
  }

  /** A stored block: from the next byte on, its length, the complement of that, bit by bit, and the bytes. */
  ghost predicate StoredAt(data: seq<byte>, pos: nat, count: nat, end: nat) {
    exists at: nat ::
      && at % 8 == 0 && pos <= at < pos + 8 && at + 32 <= 8 * |data| && Field(data, at, 16, count)
      && (forall k: nat :: k < 16 ==> Opposite(data, at, k))
      && end == at + 32 + 8 * count && end <= 8 * |data|
  }

  predicate Opposite(data: seq<byte>, at: nat, k: nat) {
    at + 16 + k < 8 * |data| && BitOf(data, at + k) + BitOf(data, at + 16 + k) == 1
  }

  ghost predicate FixedAt(data: seq<byte>, pos: nat, symbols: seq<Symbol>, end: nat) {
    exists literals, distances :: IsFixed(literals, distances) && SymbolsAt(data, pos, symbols, literals, distances, end)
  }

  ghost predicate DynamicAt(data: seq<byte>, pos: nat, h: Header, symbols: seq<Symbol>, end: nat) {
    exists middle: nat :: HeaderAt(data, pos, h, middle) && SymbolsAt(data, middle, symbols, h.literals, h.distances, end)
  }

  /** A block: whether it is the last, its kind, and its body. */
  ghost predicate BlockAt(data: seq<byte>, pos: nat, last: bool, b: Block, end: nat) {
    && Field(data, pos, 1, if last then 1 else 0)
    && match b
       case Stored(count) => Field(data, pos + 1, 2, 0) && StoredAt(data, pos + 3, count, end)
       case Fixed(symbols) => Field(data, pos + 1, 2, 1) && FixedAt(data, pos + 3, symbols, end)
       case Dynamic(h, symbols) => Field(data, pos + 1, 2, 2) && DynamicAt(data, pos + 3, h, symbols, end)
  }

  /** Blocks one behind the other, the last one marked. */
  ghost predicate BlocksAt(data: seq<byte>, pos: nat, blocks: seq<Block>, end: nat)
    decreases |blocks|
  {
    if |blocks| == 0 then false
    else if |blocks| == 1 then BlockAt(data, pos, true, blocks[0], end)
    else exists next: nat :: BlockAt(data, pos, false, blocks[0], next) && BlocksAt(data, next, blocks[1..], end)
  }

  /** The data begins with a stream of this many bytes. */
  ghost predicate StreamAt(data: seq<byte>, blocks: seq<Block>, bytes: nat) {
    exists end: nat :: BlocksAt(data, 0, blocks, end) && end <= 8 * bytes < end + 8
  }
}
