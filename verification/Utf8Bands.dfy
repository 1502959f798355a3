// The string bands of the Pack200 constant pool (JSR 200, section 5.2): front-coded UTF-16 strings, laid
// out and then filled in, and their UTF-8 form, counted and then written.
module Utf8Bands {
  import opened Common
  import opened Utf8
  import opened LayoutModel
  import opened BandSupply
  import opened PackedReader

  type Unit = u: int | 0 <= u <= 0xffff

  /** What the bands deliver. A suffix length of zero stands for an entry of the table of big suffixes. */
  datatype Bands = Bands(prefixes: seq<nat>, suffixes: seq<nat>, normal: seq<Unit>, bigLengths: seq<nat>, big: seq<Unit>)

  //
  // What the bands mean
  //

  /** Strings before string i with a big suffix, and the characters of the others. */
  function BigsBefore(suffixes: seq<nat>, i: nat): nat
    requires i <= |suffixes| + 1
  {
    if i <= 1 then 0 else BigsBefore(suffixes, i - 1) + if suffixes[i - 2] == 0 then 1 else 0
  }

  function NormalBefore(suffixes: seq<nat>, i: nat): nat
    requires i <= |suffixes| + 1
  {
    if i <= 1 then 0 else NormalBefore(suffixes, i - 1) + suffixes[i - 2]
  }

  function BigOffset(bigLengths: seq<nat>, k: nat): nat
    requires k <= |bigLengths|
  {
    if k == 0 then 0 else BigOffset(bigLengths, k - 1) + bigLengths[k - 1]
  }

  /** The bands deliver as many values as the `count` strings ask for; string 0 is the empty one. */
  predicate Shaped(b: Bands, count: nat) {
    && count > 0 && |b.suffixes| == count - 1 && |b.prefixes| == (if count > 2 then count - 2 else 0)
    && |b.bigLengths| == BigsBefore(b.suffixes, count) && |b.normal| == NormalBefore(b.suffixes, count)
    && |b.big| == BigOffset(b.bigLengths, |b.bigLengths|)
  }

  function PrefixLength(b: Bands, i: nat): nat
    requires i <= |b.prefixes| + 1
  {
    if i > 1 then b.prefixes[i - 2] else 0
  }

  lemma {:induction false} CountsRise(suffixes: seq<nat>, i: nat, n: nat)
    requires i <= n <= |suffixes| + 1
    ensures BigsBefore(suffixes, i) <= BigsBefore(suffixes, n) && NormalBefore(suffixes, i) <= NormalBefore(suffixes, n)
    ensures 1 <= i < n ==> NormalBefore(suffixes, i) + suffixes[i - 1] <= NormalBefore(suffixes, n)
    ensures 1 <= i < n && suffixes[i - 1] == 0 ==> BigsBefore(suffixes, i) < BigsBefore(suffixes, n)
    decreases n
  {
    if i < n { CountsRise(suffixes, i, n - 1); }
  }

  lemma {:induction false} OffsetsRise(bigLengths: seq<nat>, k: nat, n: nat)
    requires k <= n <= |bigLengths|
    ensures BigOffset(bigLengths, k) <= BigOffset(bigLengths, n)
    ensures k < n ==> BigOffset(bigLengths, k) + bigLengths[k] <= BigOffset(bigLengths, n)
    decreases n
  {
    if k < n { OffsetsRise(bigLengths, k, n - 1); }
  }

  /** The characters of string i behind its prefix. */
  function Suffix(b: Bands, count: nat, i: nat): seq<Unit>
    requires Shaped(b, count) && 1 <= i < count
  {
    CountsRise(b.suffixes, i, count);
    var k := BigsBefore(b.suffixes, i);
    if b.suffixes[i - 1] == 0 then
      OffsetsRise(b.bigLengths, k, |b.bigLengths|);
      b.big[BigOffset(b.bigLengths, k)..BigOffset(b.bigLengths, k) + b.bigLengths[k]]
    else
      b.normal[NormalBefore(b.suffixes, i)..NormalBefore(b.suffixes, i) + b.suffixes[i - 1]]
  }

  function Length(b: Bands, count: nat, i: nat): nat
    requires Shaped(b, count) && i < count
  {
    if i == 0 then 0 else PrefixLength(b, i) + |Suffix(b, count, i)|
  }

  /** No string takes more from its predecessor than there is. */
  predicate FrontOk(b: Bands, count: nat, i: nat)
    requires Shaped(b, count)
  {
    1 <= i < count ==> PrefixLength(b, i) <= Length(b, count, i - 1)
  }

  ghost predicate Fronted(b: Bands, count: nat)
    requires Shaped(b, count)
  {
    forall i: nat :: FrontOk(b, count, i)
  }

  /** String i: the start of the string before it, then its own suffix. */
  ghost function String(b: Bands, count: nat, i: nat): (r: seq<Unit>)
    requires Shaped(b, count) && Fronted(b, count) && i < count
    ensures |r| == Length(b, count, i)
  {
    hide Suffix;
    assert FrontOk(b, count, i);
    if i == 0 then [] else String(b, count, i - 1)[..PrefixLength(b, i)] + Suffix(b, count, i)
  }

  /** The strings before string i, one after the other. */
  ghost function Joined(b: Bands, count: nat, i: nat): (r: seq<Unit>)
    requires Shaped(b, count) && Fronted(b, count) && i <= count
    ensures |r| == TotalLength(b, count, i)
  {
    hide String; hide Fronted;
    if i == 0 then [] else Joined(b, count, i - 1) + String(b, count, i - 1)
  }

  function TotalLength(b: Bands, count: nat, i: nat): nat
    requires Shaped(b, count) && i <= count
  {
    if i == 0 then 0 else TotalLength(b, count, i - 1) + Length(b, count, i - 1)
  }

  //
  // UTF-16 to code points
  //

  predicate High(u: Unit) {
    0xd800 <= u <= 0xdbff
  }

  predicate Low(u: Unit) {
    0xdc00 <= u <= 0xdfff
  }

  function Paired(high: Unit, low: Unit): CodePoint
    requires High(high) && Low(low)
  {
    0x1_0000 + (high - 0xd800) * 0x400 + (low - 0xdc00)
  }

  /** Surrogate pairs become one code point; a surrogate without its partner stands for itself. */
  function CodePoints(s: seq<Unit>): seq<CodePoint> {
    if |s| == 0 then []
    else if |s| > 1 && High(s[0]) && Low(s[1]) then [Paired(s[0], s[1])] + CodePoints(s[2..])
    else [s[0]] + CodePoints(s[1..])
  }

  function Units(c: CodePoint): seq<Unit> {
    if c <= 0xffff then [c] else [0xd800 + (c - 0x1_0000) / 0x400, 0xdc00 + (c - 0x1_0000) % 0x400]
  }

  function ToUtf16(cs: seq<CodePoint>): seq<Unit> {
    if |cs| == 0 then [] else Units(cs[0]) + ToUtf16(cs[1..])
  }

  /** Nothing is lost on the way to code points. */
  lemma {:induction false} CodePointsInvert(s: seq<Unit>)
    ensures ToUtf16(CodePoints(s)) == s
    decreases |s|
  {
    hide Units; hide Paired;
    if |s| > 0 {
      var n := if |s| > 1 && High(s[0]) && Low(s[1]) then 2 else 1;
      CodePointsInvert(s[n..]);
      var c: CodePoint := if n == 2 then Paired(s[0], s[1]) else s[0];
      assert CodePoints(s) == [c] + CodePoints(s[n..]);
      assert CodePoints(s)[1..] == CodePoints(s[n..]);
      if n == 2 { PairSplits(s[0], s[1]); } else { UnitStays(s[0]); }
      assert s == Units(c) + s[n..];
    }
  }

  lemma PairSplits(high: Unit, low: Unit)
    requires High(high) && Low(low)
    ensures Units(Paired(high, low)) == [high, low]
  {
  }

  lemma UnitStays(u: Unit)
    ensures Units(u) == [u]
  {
  }

  function Bytes(s: seq<Unit>): seq<byte> {
    Encode(CodePoints(s))
  }

  /** The bytes of a string decode to its code points, and these are the string. */
  lemma BytesInvert(s: seq<Unit>)
    ensures Decode(Bytes(s)) == Some(CodePoints(s)) && ToUtf16(CodePoints(s)) == s
  {
    DecodeInverts(CodePoints(s));
    CodePointsInvert(s);
  }

  /** The bytes of the first n strings, one after the other. */
  function JoinedBytes(texts: seq<seq<Unit>>, n: nat): seq<byte>
    requires n <= |texts|
  {
    if n == 0 then [] else JoinedBytes(texts, n - 1) + Bytes(texts[n - 1])
  }

  //
  // Reading the bands
  //

  const MAX32: nat := 0xffff_ffff

  /** The supply holds `count` characters from `at` on. */
  predicate UnitsThere(supply: seq<int>, at: nat, count: nat) {
    at + count <= |supply| && forall k :: at <= k < at + count ==> 0 <= supply[k] <= 0xffff
  }

  /** A band of characters; each must fit 16 bits. */
  method ReadUnits(source: BandSource, coding: CodingKind, count: nat) returns (ok: bool, units: seq<Unit>)
    requires source.Valid()
    modifies source
    ensures source.Valid() && source.position <= |source.supply|
    ensures ok <==> UnitsThere(source.supply, old(source.position), count)
    ensures ok ==>
              && |units| == count && source.position == old(source.position) + count
              && units == source.supply[old(source.position)..source.position]
              && source.delivered == old(source.delivered) + Reading(coding, units)
  {
    ghost var at := source.position;
    units := [];
    var values;
    ok, values := ReadBand(source, coding, false, count);
    if !ok {
      return;
    }
    for index := 0 to count
      invariant |units| == index && forall k :: 0 <= k < index ==> units[k] == values[k]
    {
      if values[index] < 0 || values[index] > 0xffff {
        assert source.supply[at + index] == values[index];
        return false, units;
      }
      units := units + [values[index]];
    }
    assert units == values;
    forall k | at <= k < at + count
      ensures 0 <= source.supply[k] <= 0xffff
    {
      assert source.supply[k] == units[k - at];
    }
  }

  /** The reads of the first k big suffixes. */
  function BigReadings(bigLengths: seq<nat>, big: seq<Unit>, k: nat): seq<(CodingKind, seq<int>)>
    requires k <= |bigLengths| && |big| >= BigOffset(bigLengths, k)
  {
    if k == 0 then []
    else
      BigReadings(bigLengths, big, k - 1)
      + Reading(Delta5, big[BigOffset(bigLengths, k - 1)..BigOffset(bigLengths, k - 1) + bigLengths[k - 1]])
  }

  lemma {:induction false} BigReadingsKept(bigLengths: seq<nat>, big: seq<Unit>, more: seq<Unit>, k: nat)
    requires k <= |bigLengths| && |big| >= BigOffset(bigLengths, k)
    ensures BigReadings(bigLengths, big + more, k) == BigReadings(bigLengths, big, k)
  {
    if k > 0 {
      BigReadingsKept(bigLengths, big, more, k - 1);
      var at, to := BigOffset(bigLengths, k - 1), BigOffset(bigLengths, k);
      assert (big + more)[at..to] == big[at..to];
    }
  }

  method CountSuffixes(suffixes: seq<nat>) returns (ok: bool, normalCharCount: nat, bigSuffixCount: nat)
    ensures ok <==> NormalBefore(suffixes, |suffixes| + 1) <= SIZE_MAX
    ensures ok ==> normalCharCount == NormalBefore(suffixes, |suffixes| + 1) && bigSuffixCount == BigsBefore(suffixes, |suffixes| + 1)
  {
    normalCharCount, bigSuffixCount := 0, 0;
    for index := 0 to |suffixes|
      invariant normalCharCount == NormalBefore(suffixes, index + 1) <= SIZE_MAX
      invariant bigSuffixCount == BigsBefore(suffixes, index + 1)
    {
      if suffixes[index] == 0 {
        bigSuffixCount := bigSuffixCount + 1;
      } else {
        if suffixes[index] > SIZE_MAX - normalCharCount {
          CountsRise(suffixes, index + 2, |suffixes| + 1);
          return false, normalCharCount, bigSuffixCount;
        }
        normalCharCount := normalCharCount + suffixes[index];
      }
    }
    ok := true;
  }

  /** Every big suffix begins at an offset of 32 bits, and ends within what a SIZE_T counts. */
  ghost predicate BigsFit(bigLengths: seq<nat>) {
    forall k: nat :: k < |bigLengths| ==> BigFits(bigLengths, k)
  }

  predicate BigFits(bigLengths: seq<nat>, k: nat)
    requires k < |bigLengths|
  {
    BigOffset(bigLengths, k) <= MAX32 && BigOffset(bigLengths, k) + bigLengths[k] <= SIZE_MAX
  }

  /** Offsets of the big suffixes in their shared buffer; each must fit 32 bits. */
  method CountBig(bigLengths: seq<nat>) returns (ok: bool, bigCharCount: nat)
    ensures ok <==> BigsFit(bigLengths)
    ensures ok ==> bigCharCount == BigOffset(bigLengths, |bigLengths|)
  {
    bigCharCount := 0;
    for index := 0 to |bigLengths|
      invariant bigCharCount == BigOffset(bigLengths, index) <= SIZE_MAX
      invariant forall k: nat :: k < index ==> BigFits(bigLengths, k)
    {
      OffsetsRise(bigLengths, index, |bigLengths|);
      if bigCharCount > MAX32 || bigLengths[index] > SIZE_MAX - bigCharCount {
        assert !BigFits(bigLengths, index);
        return false, bigCharCount;
      }
      bigCharCount := bigCharCount + bigLengths[index];
    }
    ok := true;
  }

  /** The big suffixes, each a band of its own. */
  method ReadBigSuffixes(source: BandSource, bigLengths: seq<nat>) returns (ok: bool, big: seq<Unit>)
    requires source.Valid()
    modifies source
    ensures source.Valid() && source.position <= |source.supply|
    ensures ok <==> UnitsThere(source.supply, old(source.position), BigOffset(bigLengths, |bigLengths|))
    ensures ok ==>
              && |big| == BigOffset(bigLengths, |bigLengths|) && source.position == old(source.position) + |big|
              && big == source.supply[old(source.position)..source.position]
              && source.delivered == old(source.delivered) + BigReadings(bigLengths, big, |bigLengths|)
  {
    hide Flatten; hide Reading; hide UnitsThere; hide BigOffset; hide BigReadings; hide BandSource.Valid;
    PositionOk(source);
    BigStarts(bigLengths);
    big := [];
    ok := true;
    assert source.delivered == old(source.delivered) + [];
    NothingThere(source.supply, source.position);
    for index := 0 to |bigLengths|
      invariant source.Valid() && source.position <= |source.supply|
      invariant |big| == BigOffset(bigLengths, index) && source.position == old(source.position) + |big|
      invariant big == source.supply[old(source.position)..source.position]
      invariant UnitsThere(source.supply, old(source.position), BigOffset(bigLengths, index))
      invariant source.delivered == old(source.delivered) + BigReadings(bigLengths, big, index)
    {
      OffsetNext(bigLengths, index);
      OffsetsRise(bigLengths, index + 1, |bigLengths|);
      UnitsJoin(source.supply, old(source.position), BigOffset(bigLengths, index), BigOffset(bigLengths, index + 1),
                BigOffset(bigLengths, |bigLengths|));
      ghost var at := source.position;
      var decoded;
      ok, decoded := ReadUnits(source, Delta5, bigLengths[index]);
      if !ok {
        return;
      }
      BigNext(bigLengths, big, decoded, index);
      SlicesJoin(source.supply, old(source.position), at, source.position);
      big := big + decoded;
    }
  }

  lemma BigStarts(bigLengths: seq<nat>)
    ensures BigOffset(bigLengths, 0) == 0 && BigReadings(bigLengths, [], 0) == []
  {
  }

  lemma OffsetNext(bigLengths: seq<nat>, k: nat)
    requires k < |bigLengths|
    ensures BigOffset(bigLengths, k + 1) == BigOffset(bigLengths, k) + bigLengths[k]
  {
  }

  lemma BigNext(bigLengths: seq<nat>, big: seq<Unit>, more: seq<Unit>, k: nat)
    requires k < |bigLengths| && |big| == BigOffset(bigLengths, k) && |more| == bigLengths[k]
    ensures |big + more| == BigOffset(bigLengths, k + 1)
    ensures BigReadings(bigLengths, big + more, k + 1) == BigReadings(bigLengths, big, k) + Reading(Delta5, more)
  {
    hide Reading;
    BigReadingsKept(bigLengths, big, more, k);
    assert (big + more)[|big|..|big| + |more|] == more;
  }

  lemma SlicesJoin(supply: seq<int>, a: nat, b: nat, c: nat)
    requires a <= b <= c <= |supply|
    ensures supply[a..c] == supply[a..b] + supply[b..c]
  {
  }

  lemma NothingThere(supply: seq<int>, at: nat)
    requires at <= |supply|
    ensures UnitsThere(supply, at, 0)
  {
  }

  lemma UnitsJoin(supply: seq<int>, at: nat, some: nat, more: nat, all: nat)
    requires some <= more <= all
    ensures UnitsThere(supply, at, some) && UnitsThere(supply, at + some, more - some) <==> UnitsThere(supply, at, more)
    ensures UnitsThere(supply, at, all) ==> UnitsThere(supply, at, more)
  {
  }

  /** Every read of the bands, in order. */
  function StringReadings(b: Bands): seq<(CodingKind, seq<int>)>
    requires |b.big| >= BigOffset(b.bigLengths, |b.bigLengths|)
  {
    FrontReadings(b) + Reading(Delta5, b.bigLengths) + BigReadings(b.bigLengths, b.big, |b.bigLengths|)
  }

  function FrontReadings(b: Bands): seq<(CodingKind, seq<int>)> {
    Reading(Delta5, b.prefixes) + Reading(Unsigned5, b.suffixes) + Reading(Char3, b.normal)
  }

  lemma ReadingsJoin(before: seq<(CodingKind, seq<int>)>, b: Bands)
    requires |b.big| >= BigOffset(b.bigLengths, |b.bigLengths|)
    ensures before + FrontReadings(b) + Reading(Delta5, b.bigLengths) + BigReadings(b.bigLengths, b.big, |b.bigLengths|)
         == before + StringReadings(b)
  {
    hide FrontReadings; hide BigReadings; hide Reading; hide BigOffset;
  }

  lemma FrontReadingsJoin(before: seq<(CodingKind, seq<int>)>, b: Bands)
    ensures before + Reading(Delta5, b.prefixes) + Reading(Unsigned5, b.suffixes) + Reading(Char3, b.normal)
         == before + FrontReadings(b)
  {
    hide Reading;
  }

  lemma FrontReadingsSame(b: Bands, more: Bands)
    requires more.prefixes == b.prefixes && more.suffixes == b.suffixes && more.normal == b.normal
    ensures FrontReadings(more) == FrontReadings(b)
  {
  }

  /** Every value of the bands, in the order they are read. */
  function StringWords(b: Bands): seq<int> {
    b.prefixes + b.suffixes + b.normal + b.bigLengths + b.big
  }

  /** The integers of `rest` start with the bands b of `count` strings, whose totals can be counted. */
  ghost predicate SpellsStrings(b: Bands, count: nat, rest: seq<int>) {
    && Shaped(b, count) && NormalBefore(b.suffixes, count) <= SIZE_MAX && BigsFit(b.bigLengths)
    && StringWords(b) <= rest
  }

  /** They start with some bands. */
  ghost predicate StringsSpelt(count: nat, rest: seq<int>) {
    exists b :: SpellsStrings(b, count, rest)
  }

  /** Pieces laid end to end at the start of `rest`. */
  lemma PieceOf(rest: seq<int>, front: seq<int>, band: seq<int>, back: seq<int>)
    requires front + band + back <= rest
    ensures |front| + |band| + |back| <= |rest| && rest[|front|..|front| + |band|] == band
  {
    var all := front + band + back;
    forall k | 0 <= k < |band|
      ensures rest[|front| + k] == band[k]
    {
      assert rest[|front| + k] == all[|front| + k];
    }
  }

  /** Where the bands stand. */
  lemma BandsOf(b: Bands, count: nat, rest: seq<int>)
    requires SpellsStrings(b, count, rest)
    ensures var p, q := |b.prefixes|, |b.prefixes| + |b.suffixes|;
      var r, s := q + |b.normal|, q + |b.normal| + |b.bigLengths|;
      && s + |b.big| <= |rest| && b.prefixes == rest[..p] && b.suffixes == rest[p..q] && b.normal == rest[q..r]
      && b.bigLengths == rest[r..s] && b.big == rest[s..s + |b.big|]
  {
    hide Shaped; hide BigsFit; hide StringWords;
    WordsGrouped(b);
    PieceOf(rest, [], b.prefixes, b.suffixes + (b.normal + (b.bigLengths + b.big)));
    PieceOf(rest, b.prefixes, b.suffixes, b.normal + (b.bigLengths + b.big));
    PieceOf(rest, b.prefixes + b.suffixes, b.normal, b.bigLengths + b.big);
    PieceOf(rest, b.prefixes + b.suffixes + b.normal, b.bigLengths, b.big);
    PieceOf(rest, b.prefixes + b.suffixes + b.normal + b.bigLengths, b.big, []);
  }

  /** The bands around each band. */
  lemma WordsGrouped(b: Bands)
    ensures StringWords(b) == [] + b.prefixes + (b.suffixes + (b.normal + (b.bigLengths + b.big)))
    ensures StringWords(b) == b.prefixes + b.suffixes + (b.normal + (b.bigLengths + b.big))
    ensures StringWords(b) == (b.prefixes + b.suffixes) + b.normal + (b.bigLengths + b.big)
    ensures StringWords(b) == (b.prefixes + b.suffixes + b.normal) + b.bigLengths + b.big
    ensures StringWords(b) == (b.prefixes + b.suffixes + b.normal + b.bigLengths) + b.big + []
  {
    Regroup(b.prefixes + b.suffixes + b.normal, b.bigLengths, b.big);
    Regroup(b.prefixes + b.suffixes, b.normal, b.bigLengths + b.big);
    Regroup(b.prefixes, b.suffixes, b.normal + (b.bigLengths + b.big));
  }

  lemma Regroup(a: seq<int>, b: seq<int>, c: seq<int>)
    ensures a + b + c == a + (b + c)
  {
  }

  /** The same integers spell the same bands. */
  lemma BandsUnique(b: Bands, other: Bands, count: nat, rest: seq<int>)
    requires SpellsStrings(b, count, rest) && SpellsStrings(other, count, rest)
    ensures b == other
  {
    hide BigsFit; hide StringWords; hide BigOffset; hide BigsBefore; hide NormalBefore;
    BandsOf(b, count, rest);
    BandsOf(other, count, rest);
    assert b.prefixes == other.prefixes && b.suffixes == other.suffixes && b.normal == other.normal;
    assert b.bigLengths == other.bigLengths;
  }

  /** Prefixes, suffix lengths and characters stand at the start of `rest`, as many as `count` strings ask for. */
  ghost predicate Fronts(part: Bands, count: nat, rest: seq<int>) {
    && count > 0 && |part.prefixes| == (if count > 2 then count - 2 else 0) && |part.suffixes| == count - 1
    && |part.normal| == NormalBefore(part.suffixes, count) <= SIZE_MAX
    && var p, q := |part.prefixes|, |part.prefixes| + |part.suffixes|;
    && q + |part.normal| <= |rest|
    && part.prefixes == rest[..p] && part.suffixes == rest[p..q] && part.normal == rest[q..q + |part.normal|]
  }

  /** Prefixes, suffix lengths and the characters of the short suffixes. */
  method ReadFronts(source: BandSource, utf8Count: nat) returns (status: Status, b: Bands, bigSuffixCount: nat)
    requires source.Valid()
    modifies source
    ensures source.Valid() && source.position <= |source.supply|
    ensures status == Success ==>
              && Fronts(b, utf8Count, source.supply[old(source.position)..])
              && source.position == old(source.position) + |b.prefixes| + |b.suffixes| + |b.normal|
              && bigSuffixCount == BigsBefore(b.suffixes, utf8Count)
              && source.delivered == old(source.delivered) + FrontReadings(b)
    ensures status != Success ==> !StringsSpelt(utf8Count, source.supply[old(source.position)..])
  {
    hide Flatten; hide Reading; hide BigsBefore; hide NormalBefore; hide BigsFit;
    hide UnitsThere; hide BandThere; hide SpellsStrings; hide StringsSpelt; hide Fronts; hide FrontReadings; hide BandSource.Valid;
    b, bigSuffixCount := Bands([], [], [], [], []), 0;
    PositionOk(source);
    ghost var rest, origin := source.supply[source.position..], source.position;
    if utf8Count == 0 {
      NoStrings(rest);
      return InvalidNetworkResponse, b, bigSuffixCount;
    }
    var prefixCount := if utf8Count > 2 then utf8Count - 2 else 0;
    ThereFrom(source.supply, origin, 0, true, prefixCount);
    var ok, prefixes := ReadBand(source, Delta5, true, prefixCount);
    if !ok {
      NoPrefixes(utf8Count, rest, prefixCount);
      return InvalidNetworkResponse, b, bigSuffixCount;
    }
    b := b.(prefixes := prefixes);
    SamePiece(source.supply, origin, 0, prefixCount);
    ThereFrom(source.supply, origin, prefixCount, true, utf8Count - 1);
    var suffixes;
    ok, suffixes := ReadBand(source, Unsigned5, true, utf8Count - 1);
    if !ok {
      NoPrefixes(utf8Count, rest, prefixCount);
      return InvalidNetworkResponse, b, bigSuffixCount;
    }
    b := b.(suffixes := suffixes);
    ghost var at := |prefixes| + |suffixes|;
    SamePiece(source.supply, origin, |prefixes|, |suffixes|);
    var normalCharCount;
    ok, normalCharCount, bigSuffixCount := CountSuffixes(suffixes);
    if !ok {
      NoCharacters(utf8Count, rest, prefixCount, suffixes);
      return IntegerOverflow, b, bigSuffixCount;
    }
    UnitsFrom(source.supply, origin, at, normalCharCount);
    var normal;
    ok, normal := ReadUnits(source, Char3, normalCharCount);
    if !ok {
      NoCharacters(utf8Count, rest, prefixCount, suffixes);
      return InvalidNetworkResponse, b, bigSuffixCount;
    }
    b := b.(normal := normal);
    SamePiece(source.supply, origin, at, |normal|);
    FrontsRead(b, utf8Count, rest);
    FrontReadingsJoin(old(source.delivered), b);
    status := Success;
  }

  lemma FrontsRead(b: Bands, count: nat, rest: seq<int>)
    requires count > 0 && |b.prefixes| == (if count > 2 then count - 2 else 0) && |b.suffixes| == count - 1
    requires |b.normal| == NormalBefore(b.suffixes, count) <= SIZE_MAX
    requires |b.prefixes| + |b.suffixes| + |b.normal| <= |rest|
    requires b.prefixes == rest[..|b.prefixes|] && b.suffixes == rest[|b.prefixes|..|b.prefixes| + |b.suffixes|]
    requires var q := |b.prefixes| + |b.suffixes|; b.normal == rest[q..q + |b.normal|]
    ensures Fronts(b, count, rest)
  {
  }

  method ReadStringBands(source: BandSource, utf8Count: nat) returns (status: Status, b: Bands)
    requires source.Valid()
    modifies source
    ensures source.Valid()
    ensures status == Success <==> StringsSpelt(utf8Count, source.supply[old(source.position)..])
    ensures status == Success ==>
              && SpellsStrings(b, utf8Count, source.supply[old(source.position)..])
              && source.delivered == old(source.delivered) + StringReadings(b)
  {
    hide Flatten; hide Reading; hide BigReadings; hide BigOffset; hide BigsBefore; hide NormalBefore; hide BigsFit;
    hide UnitsThere; hide BandThere; hide SpellsStrings; hide StringsSpelt; hide Fronts; hide FrontReadings;
    hide BandSource.Valid; hide StringReadings;
    PositionOk(source);
    ghost var rest, origin := source.supply[source.position..], source.position;
    var bigSuffixCount;
    status, b, bigSuffixCount := ReadFronts(source, utf8Count);
    if status != Success {
      return;
    }
    FrontSizes(b, utf8Count, rest);
    ghost var front := b;
    ghost var at := |b.prefixes| + |b.suffixes| + |b.normal|;
    ThereFrom(source.supply, origin, at, true, bigSuffixCount);
    var ok, bigLengths := ReadBand(source, Delta5, true, bigSuffixCount);
    if !ok {
      NoLengths(utf8Count, rest, front, at);
      return InvalidNetworkResponse, b;
    }
    b := b.(bigLengths := bigLengths);
    FrontsKept(front, b, utf8Count, rest);
    SamePiece(source.supply, origin, at, |bigLengths|);
    var bigCharCount;
    ok, bigCharCount := CountBig(bigLengths);
    if !ok {
      NoBig(utf8Count, rest, b, at);
      return IntegerOverflow, b;
    }
    UnitsFrom(source.supply, origin, at + |bigLengths|, bigCharCount);
    var big;
    ok, big := ReadBigSuffixes(source, bigLengths);
    if !ok {
      NoBig(utf8Count, rest, b, at);
      return InvalidNetworkResponse, b;
    }
    SamePiece(source.supply, origin, at + |bigLengths|, |big|);
    b := b.(big := big);
    FrontsKept(front, b, utf8Count, rest);
    BandsRead(b, utf8Count, rest);
    FrontReadingsSame(front, b);
    ReadingsJoin(old(source.delivered), b);
  }

  lemma FrontSizes(b: Bands, count: nat, rest: seq<int>)
    requires Fronts(b, count, rest)
    ensures count > 0 && |b.prefixes| == (if count > 2 then count - 2 else 0) && |b.suffixes| == count - 1
    ensures |b.normal| == NormalBefore(b.suffixes, count) && |b.prefixes| + count - 1 <= |rest|
    ensures b.prefixes == rest[..|b.prefixes|] && b.suffixes == rest[|b.prefixes|..|b.prefixes| + count - 1]
  {
  }

  lemma FrontsKept(b: Bands, more: Bands, count: nat, rest: seq<int>)
    requires Fronts(b, count, rest) && more.prefixes == b.prefixes && more.suffixes == b.suffixes && more.normal == b.normal
    ensures Fronts(more, count, rest)
  {
  }

  lemma PositionOk(source: BandSource)
    requires source.Valid()
    ensures source.position <= |source.supply|
  {
  }

  lemma UnitsFrom(supply: seq<int>, origin: nat, at: nat, count: nat)
    requires origin <= |supply|
    ensures UnitsThere(supply, origin + at, count) <==> UnitsThere(supply[origin..], at, count)
  {
    if UnitsThere(supply[origin..], at, count) {
      forall k | origin + at <= k < origin + at + count
        ensures supply[k] == supply[origin..][k - origin]
      {
      }
    }
  }

  lemma NoStrings(rest: seq<int>)
    ensures !StringsSpelt(0, rest)
  {
  }

  /** Any bands spelled here can be read one by one. */
  lemma SpelledThere(b: Bands, count: nat, rest: seq<int>)
    requires SpellsStrings(b, count, rest)
    ensures count > 0 && NormalBefore(b.suffixes, count) <= SIZE_MAX && BigsFit(b.bigLengths)
    ensures var p := if count > 2 then count - 2 else 0;
      var n := NormalBefore(b.suffixes, count);
      var at := p + count - 1 + n;
      && BandThere(rest, 0, true, p) && BandThere(rest, p, true, count - 1)
      && |b.suffixes| == count - 1 && p + count - 1 <= |rest| && b.suffixes == rest[p..p + count - 1]
      && UnitsThere(rest, p + count - 1, n) && BandThere(rest, at, true, BigsBefore(b.suffixes, count))
      && |b.bigLengths| == BigsBefore(b.suffixes, count) && at + |b.bigLengths| <= |rest|
      && b.bigLengths == rest[at..at + |b.bigLengths|]
      && UnitsThere(rest, at + |b.bigLengths|, BigOffset(b.bigLengths, |b.bigLengths|))
  {
    hide BigOffset; hide BigsBefore; hide NormalBefore; hide BigsFit; hide StringWords; hide UnitsThere; hide BandThere;
    BandsOf(b, count, rest);
    var p, q := |b.prefixes|, |b.prefixes| + |b.suffixes|;
    NatsThere(rest, 0, b.prefixes);
    NatsThere(rest, p, b.suffixes);
    UnitsAt(rest, q, b.normal);
    NatsThere(rest, q + |b.normal|, b.bigLengths);
    UnitsAt(rest, q + |b.normal| + |b.bigLengths|, b.big);
  }

  lemma NoPrefixes(count: nat, rest: seq<int>, p: nat)
    requires count > 0 && p == (if count > 2 then count - 2 else 0)
    requires !BandThere(rest, 0, true, p) || !BandThere(rest, p, true, count - 1)
    ensures !StringsSpelt(count, rest)
  {
    hide SpellsStrings; hide BandThere; hide UnitsThere; hide BigsFit;
    forall b | SpellsStrings(b, count, rest)
      ensures false
    {
      SpelledThere(b, count, rest);
    }
  }

  lemma NoCharacters(count: nat, rest: seq<int>, p: nat, suffixes: seq<nat>)
    requires count > 0 && p == (if count > 2 then count - 2 else 0)
    requires |suffixes| == count - 1 && p + count - 1 <= |rest| && suffixes == rest[p..p + count - 1]
    requires NormalBefore(suffixes, count) > SIZE_MAX || !UnitsThere(rest, p + count - 1, NormalBefore(suffixes, count))
    ensures !StringsSpelt(count, rest)
  {
    hide SpellsStrings; hide BandThere; hide UnitsThere; hide BigsFit; hide NormalBefore; hide BigsBefore; hide BigOffset;
    forall b | SpellsStrings(b, count, rest)
      ensures false
    {
      SpelledThere(b, count, rest);
      SameBand(b.suffixes, suffixes, rest, p);
    }
  }

  lemma SameBand(a: seq<nat>, b: seq<nat>, rest: seq<int>, at: nat)
    requires |a| == |b| && at + |a| <= |rest| && a == rest[at..at + |a|] && b == rest[at..at + |a|]
    ensures a == b
  {
  }

  lemma NoLengths(count: nat, rest: seq<int>, part: Bands, at: nat)
    requires Fronts(part, count, rest) && at == |part.prefixes| + |part.suffixes| + |part.normal|
    requires !BandThere(rest, at, true, BigsBefore(part.suffixes, count))
    ensures !StringsSpelt(count, rest)
  {
    hide SpellsStrings; hide BandThere; hide UnitsThere; hide BigsFit; hide NormalBefore; hide BigsBefore; hide BigOffset; hide Fronts;
    FrontSizes(part, count, rest);
    forall b | SpellsStrings(b, count, rest)
      ensures false
    {
      SpelledThere(b, count, rest);
      SameBand(b.suffixes, part.suffixes, rest, |part.prefixes|);
    }
  }

  lemma NoBig(count: nat, rest: seq<int>, part: Bands, at: nat)
    requires Fronts(part, count, rest) && at == |part.prefixes| + |part.suffixes| + |part.normal|
    requires |part.bigLengths| == BigsBefore(part.suffixes, count) && at + |part.bigLengths| <= |rest|
    requires part.bigLengths == rest[at..at + |part.bigLengths|]
    requires
      || !BigsFit(part.bigLengths)
      || !UnitsThere(rest, at + |part.bigLengths|, BigOffset(part.bigLengths, |part.bigLengths|))
    ensures !StringsSpelt(count, rest)
  {
    hide SpellsStrings; hide BandThere; hide UnitsThere; hide BigsFit; hide NormalBefore; hide BigsBefore; hide BigOffset; hide Fronts;
    FrontSizes(part, count, rest);
    forall b | SpellsStrings(b, count, rest)
      ensures false
    {
      SpelledThere(b, count, rest);
      SameBand(b.suffixes, part.suffixes, rest, |part.prefixes|);
      SameBand(b.bigLengths, part.bigLengths, rest, at);
    }
  }

  lemma NatsThere(rest: seq<int>, at: nat, band: seq<nat>)
    requires at + |band| <= |rest| && rest[at..at + |band|] == band
    ensures BandThere(rest, at, true, |band|)
  {
    forall k | at <= k < at + |band|
      ensures rest[k] == band[k - at]
    {
    }
  }

  lemma UnitsAt(rest: seq<int>, at: nat, band: seq<Unit>)
    requires at + |band| <= |rest| && rest[at..at + |band|] == band
    ensures UnitsThere(rest, at, |band|)
  {
    forall k | at <= k < at + |band|
      ensures rest[k] == band[k - at]
    {
    }
  }

  /** The bands read one after the other are those the supply spells. */
  lemma BandsRead(b: Bands, count: nat, rest: seq<int>)
    requires Fronts(b, count, rest) && BigsFit(b.bigLengths) && |StringWords(b)| <= |rest|
    requires |b.bigLengths| == BigsBefore(b.suffixes, count) && |b.big| == BigOffset(b.bigLengths, |b.bigLengths|)
    requires var r := |b.prefixes| + |b.suffixes| + |b.normal|;
      var s := r + |b.bigLengths|;
      b.bigLengths == rest[r..s] && b.big == rest[s..s + |b.big|]
    ensures SpellsStrings(b, count, rest) && StringsSpelt(count, rest)
  {
    hide BigsFit; hide NormalBefore; hide BigsBefore; hide BigOffset;
    var q, s := |b.prefixes| + |b.suffixes|, |StringWords(b)| - |b.big|;
    assert b.prefixes + b.suffixes == rest[..q];
    assert b.prefixes + b.suffixes + b.normal == rest[..q + |b.normal|];
    assert b.prefixes + b.suffixes + b.normal + b.bigLengths == rest[..s];
    assert StringWords(b) == rest[..|StringWords(b)|];
  }

  //
  // The length pass
  //

  /** Which strings have been laid out so far, and how much room they take. */
  method MeasureStrings(b: Bands, count: nat, suffixLengths: array<nat>, utf16Lengths: array<nat>) returns (status: Status, total: nat)
    requires Shaped(b, count) && suffixLengths.Length == utf16Lengths.Length == count && suffixLengths != utf16Lengths
    modifies suffixLengths, utf16Lengths
    ensures status == Success <==> Fronted(b, count) && TotalLength(b, count, count) <= MAX32
    ensures status == Success ==> total == TotalLength(b, count, count)
    ensures status == Success ==>
              forall i: nat :: i < count ==> utf16Lengths[i] == Length(b, count, i)
                                             && (i > 0 ==> suffixLengths[i] == |Suffix(b, count, i)|)
    ensures status == InvalidNetworkResponse ==> !Fronted(b, count)
  {
    hide Shaped; hide Suffix; hide Length; hide TotalLength;
    ShapedCounts(b, count);
    suffixLengths[0], utf16Lengths[0] := 0, 0;
    total := 0;
    var bigSuffixIndex := 0;
    FirstLengths(b, count);
    for stringIndex := 1 to count
      invariant utf16Lengths[0] == 0
      invariant bigSuffixIndex == BigsBefore(b.suffixes, stringIndex)
      invariant total == TotalLength(b, count, stringIndex) <= MAX32
      invariant forall i: nat :: i < stringIndex ==> FrontOk(b, count, i)
      invariant forall i: nat :: i < stringIndex ==> utf16Lengths[i] == Length(b, count, i)
                                                     && (i > 0 ==> suffixLengths[i] == |Suffix(b, count, i)|)
    {
      NextLengths(b, count, stringIndex);
      var prefixLength := if stringIndex > 1 then b.prefixes[stringIndex - 2] else 0;
      if prefixLength > utf16Lengths[stringIndex - 1] {
        assert !FrontOk(b, count, stringIndex);
        return InvalidNetworkResponse, total;
      }
      var suffixLength := b.suffixes[stringIndex - 1];
      if suffixLength == 0 {
        suffixLength := b.bigLengths[bigSuffixIndex];
        bigSuffixIndex := bigSuffixIndex + 1;
      }
      if suffixLength > MAX32 {
        return IntegerOverflow, total;
      }
      suffixLengths[stringIndex] := suffixLength;
      var stringLength := prefixLength + suffixLength;
      if stringLength > SIZE_MAX || total + stringLength > SIZE_MAX || total + stringLength > MAX32 {
        return IntegerOverflow, total;
      }
      total := total + stringLength;
      utf16Lengths[stringIndex] := stringLength;
    }
    assert forall i: nat :: i >= count ==> FrontOk(b, count, i);
    status := Success;
  }

  lemma ShapedCounts(b: Bands, count: nat)
    requires Shaped(b, count)
    ensures count > 0 && |b.suffixes| == count - 1 && |b.prefixes| == (if count > 2 then count - 2 else 0)
    ensures BigsBefore(b.suffixes, 1) == 0
  {
  }

  lemma FirstLengths(b: Bands, count: nat)
    requires Shaped(b, count)
    ensures Length(b, count, 0) == 0 && TotalLength(b, count, 1) == 0 && TotalLength(b, count, 0) == 0
  {
    assert TotalLength(b, count, 1) == TotalLength(b, count, 0) + Length(b, count, 0);
  }

  /** Step from string to string, and the bound the totals put on every later one. */
  lemma NextLengths(b: Bands, count: nat, i: nat)
    requires Shaped(b, count) && 1 <= i < count
    ensures BigsBefore(b.suffixes, i + 1) == BigsBefore(b.suffixes, i) + if b.suffixes[i - 1] == 0 then 1 else 0
    ensures b.suffixes[i - 1] == 0 ==> BigsBefore(b.suffixes, i) < |b.bigLengths|
    ensures |Suffix(b, count, i)| == if b.suffixes[i - 1] == 0 then b.bigLengths[BigsBefore(b.suffixes, i)] else b.suffixes[i - 1]
    ensures Length(b, count, i) == PrefixLength(b, i) + |Suffix(b, count, i)|
    ensures TotalLength(b, count, i) + Length(b, count, i) == TotalLength(b, count, i + 1) <= TotalLength(b, count, count)
  {
    hide Suffix; hide BigOffset; hide NormalBefore;
    SuffixIs(b, count, i);
    TotalsRise(b, count, i + 1, count);
  }

  lemma {:induction false} TotalsRise(b: Bands, count: nat, i: nat, n: nat)
    requires Shaped(b, count) && i <= n <= count
    ensures TotalLength(b, count, i) <= TotalLength(b, count, n)
    decreases n
  {
    hide Length;
    if i < n { TotalsRise(b, count, i, n - 1); }
  }

  //
  // The fill pass
  //

  /** Copy units into a later, disjoint part of the buffer. */
  method CopyWithin(chars: array<Unit>, from: nat, to: nat, count: nat)
    requires from + count <= to && to + count <= chars.Length
    modifies chars
    ensures chars[..to] == old(chars[..to])
    ensures chars[to..to + count] == old(chars[from..from + count])
  {
    for k := 0 to count
      invariant chars[..to] == old(chars[..to])
      invariant chars[to..to + k] == old(chars[from..from + k])
    {
      assert chars[from + k] == chars[..to][from + k] == old(chars[from + k]);
      ghost var before := chars[..];
      chars[to + k] := chars[from + k];
      assert chars[..to] == before[..to] && chars[to..to + k + 1] == before[to..to + k] + [chars[to + k]];
    }
  }

  method CopyIn(chars: array<Unit>, units: seq<Unit>, to: nat)
    requires to + |units| <= chars.Length
    modifies chars
    ensures chars[..to] == old(chars[..to]) && chars[to..to + |units|] == units
  {
    for k := 0 to |units|
      invariant forall j :: 0 <= j < to ==> chars[j] == old(chars[j])
      invariant forall j :: 0 <= j < k ==> chars[to + j] == units[j]
    {
      chars[to + k] := units[k];
    }
  }

  /** One string: units repeated from the string before it, then its suffix. */
  method PlaceString(chars: array<Unit>, previousOffset: nat, prefixLength: nat, suffix: seq<Unit>, cursor: nat)
    requires previousOffset + prefixLength <= cursor && cursor + prefixLength + |suffix| <= chars.Length
    modifies chars
    ensures chars[..cursor] == old(chars[..cursor])
    ensures chars[cursor..cursor + prefixLength + |suffix|] == old(chars[previousOffset..previousOffset + prefixLength]) + suffix
  {
    if prefixLength != 0 {
      CopyWithin(chars, previousOffset, cursor, prefixLength);
    }
    ghost var middle := chars[..];
    if |suffix| != 0 {
      CopyIn(chars, suffix, cursor + prefixLength);
    }
    PiecesJoin(old(chars[..]), middle, chars[..], cursor, cursor + prefixLength, cursor + prefixLength + |suffix|);
  }

  /** Two copies one behind the other: what stands in front stays, and the rest is the two pieces. */
  lemma PiecesJoin(before: seq<Unit>, middle: seq<Unit>, after: seq<Unit>, a: nat, m: nat, c: nat)
    requires a <= m <= c <= |before| == |middle| == |after|
    requires middle[..a] == before[..a] && after[..m] == middle[..m]
    ensures after[..a] == before[..a] && after[a..c] == middle[a..m] + after[m..c]
  {
    assert after[..a] == after[..m][..a] == middle[..m][..a] == middle[..a];
    assert after[a..m] == after[..m][a..] == middle[..m][a..] == middle[a..m];
  }

  /** Offset and length of string i, and the units there. */
  ghost predicate SliceOk(b: Bands, count: nat, offsets: seq<nat>, lengths: seq<nat>, chars: seq<Unit>, i: nat)
    requires Shaped(b, count) && Fronted(b, count) && |offsets| == |lengths| == count && i < count
  {
    && offsets[i] == TotalLength(b, count, i) && lengths[i] == Length(b, count, i)
    && offsets[i] + lengths[i] <= |chars| && chars[offsets[i]..offsets[i] + lengths[i]] == String(b, count, i)
  }

  /** The first n strings are laid out one behind the other. */
  ghost predicate Laid(b: Bands, count: nat, offsets: seq<nat>, lengths: seq<nat>, chars: seq<Unit>, n: nat)
    requires Shaped(b, count) && Fronted(b, count) && n <= count
  {
    hide SliceOk; hide Fronted; hide Shaped;
    && |offsets| == |lengths| == count && TotalLength(b, count, n) <= |chars|
    && chars[..TotalLength(b, count, n)] == Joined(b, count, n)
    && forall i: nat :: i < n ==> SliceOk(b, count, offsets, lengths, chars, i)
  }

  lemma StringNext(b: Bands, count: nat, i: nat)
    requires Shaped(b, count) && Fronted(b, count) && 1 <= i < count
    ensures PrefixLength(b, i) <= Length(b, count, i - 1)
    ensures String(b, count, i) == String(b, count, i - 1)[..PrefixLength(b, i)] + Suffix(b, count, i)
  {
    hide Suffix;
    assert FrontOk(b, count, i);
  }

  lemma SuffixIs(b: Bands, count: nat, i: nat)
    requires Shaped(b, count) && 1 <= i < count
    ensures var k, n := BigsBefore(b.suffixes, i), NormalBefore(b.suffixes, i);
      if b.suffixes[i - 1] == 0
      then k < |b.bigLengths| && BigOffset(b.bigLengths, k) + b.bigLengths[k] <= |b.big|
           && Suffix(b, count, i) == b.big[BigOffset(b.bigLengths, k)..BigOffset(b.bigLengths, k) + b.bigLengths[k]]
      else n + b.suffixes[i - 1] <= |b.normal| && Suffix(b, count, i) == b.normal[n..n + b.suffixes[i - 1]]
    ensures NormalBefore(b.suffixes, i + 1) == NormalBefore(b.suffixes, i) + b.suffixes[i - 1]
  {
    CountsRise(b.suffixes, i, count);
    if b.suffixes[i - 1] == 0 { OffsetsRise(b.bigLengths, BigsBefore(b.suffixes, i), |b.bigLengths|); }
  }

  function BigOffsets(bigLengths: seq<nat>): (r: seq<nat>)
    ensures |r| == |bigLengths| && forall k :: 0 <= k < |r| ==> r[k] == BigOffset(bigLengths, k)
  {
    seq(|bigLengths|, k requires 0 <= k < |bigLengths| => BigOffset(bigLengths, k))
  }

  lemma FirstCounts(suffixes: seq<nat>)
    ensures BigsBefore(suffixes, 1) == 0 && NormalBefore(suffixes, 1) == 0
  {
  }

  lemma FirstLaid(b: Bands, count: nat, offsets: seq<nat>, lengths: seq<nat>, chars: seq<Unit>)
    requires Shaped(b, count) && Fronted(b, count) && |offsets| == |lengths| == count
    requires offsets[0] == 0 && lengths[0] == 0
    ensures Laid(b, count, offsets, lengths, chars, 1)
  {
    hide Fronted;
    FirstLengths(b, count);
    assert Joined(b, count, 1) == Joined(b, count, 0) + String(b, count, 0);
  }

  /** The slices before string i stay right when the buffer grows behind them. */
  lemma SliceKept(b: Bands, count: nat, offsets: seq<nat>, lengths: seq<nat>, chars: seq<Unit>,
                  offsets': seq<nat>, lengths': seq<nat>, chars': seq<Unit>, i: nat, n: nat)
    requires Shaped(b, count) && Fronted(b, count) && |offsets| == |lengths| == |offsets'| == |lengths'| == count && i < count
    requires SliceOk(b, count, offsets, lengths, chars, i)
    requires offsets'[i] == offsets[i] && lengths'[i] == lengths[i]
    requires offsets[i] + lengths[i] <= n <= |chars| && n <= |chars'| && chars'[..n] == chars[..n]
    ensures SliceOk(b, count, offsets', lengths', chars', i)
  {
    hide Fronted; hide String; hide Length; hide TotalLength;
    var from, to := offsets[i], offsets[i] + lengths[i];
    assert chars[from..to] == chars[..n][from..to] == chars'[..n][from..to] == chars'[from..to];
  }

  /** The suffix of string i, from the buffer its length says, and the cursors behind it. */
  method TakeSuffix(b: Bands, count: nat, i: nat, suffixLength: nat, bigSuffixOffsets: seq<nat>, normalCursor: nat, bigSuffixIndex: nat)
    returns (suffix: seq<Unit>, nextNormal: nat, nextBig: nat)
    requires Shaped(b, count) && 1 <= i < count && suffixLength == |Suffix(b, count, i)| && bigSuffixOffsets == BigOffsets(b.bigLengths)
    requires normalCursor == NormalBefore(b.suffixes, i) && bigSuffixIndex == BigsBefore(b.suffixes, i)
    ensures suffix == Suffix(b, count, i)
    ensures nextNormal == NormalBefore(b.suffixes, i + 1) && nextBig == BigsBefore(b.suffixes, i + 1)
  {
    hide Suffix; hide BigOffset; hide NormalBefore;
    SuffixIs(b, count, i);
    nextNormal, nextBig := normalCursor, bigSuffixIndex;
    if b.suffixes[i - 1] == 0 {
      var bigOffset := bigSuffixOffsets[bigSuffixIndex];
      nextBig := bigSuffixIndex + 1;
      suffix := b.big[bigOffset..bigOffset + suffixLength];
    } else {
      suffix := b.normal[normalCursor..normalCursor + suffixLength];
      nextNormal := normalCursor + suffixLength;
    }
  }

  /** The next string: the start of the one before it and its own suffix. */
  method FillOne(b: Bands, count: nat, stringIndex: nat, suffixLength: nat, bigSuffixOffsets: seq<nat>, offsets: array<nat>,
                 lengths: array<nat>, chars: array<Unit>, cursor: nat, normalCursor: nat, bigSuffixIndex: nat)
    returns (nextCursor: nat, nextNormal: nat, nextBig: nat)
    requires Shaped(b, count) && Fronted(b, count) && chars.Length == TotalLength(b, count, count) <= MAX32
    requires offsets.Length == lengths.Length == count && offsets != lengths && 1 <= stringIndex < count
    requires suffixLength == |Suffix(b, count, stringIndex)| && bigSuffixOffsets == BigOffsets(b.bigLengths)
    requires cursor == TotalLength(b, count, stringIndex) <= chars.Length
    requires normalCursor == NormalBefore(b.suffixes, stringIndex) && bigSuffixIndex == BigsBefore(b.suffixes, stringIndex)
    requires Laid(b, count, offsets[..], lengths[..], chars[..], stringIndex)
    modifies offsets, lengths, chars
    ensures nextCursor == TotalLength(b, count, stringIndex + 1) <= chars.Length
    ensures nextNormal == NormalBefore(b.suffixes, stringIndex + 1) && nextBig == BigsBefore(b.suffixes, stringIndex + 1)
    ensures Laid(b, count, offsets[..], lengths[..], chars[..], stringIndex + 1)
  {
    hide Shaped; hide Fronted; hide Suffix; hide Length; hide TotalLength; hide String; hide Laid; hide BigOffset;
    hide BigsBefore; hide NormalBefore; hide BigOffsets; hide FrontOk; hide Joined;
    ShapedCounts(b, count);
    ghost var offsets0, lengths0, chars0 := offsets[..], lengths[..], chars[..];
    NextLengths(b, count, stringIndex);
    LastSlice(b, count, offsets0, lengths0, chars0, stringIndex);
    var prefixLength := if stringIndex > 1 then b.prefixes[stringIndex - 2] else 0;
    offsets[stringIndex] := cursor;
    var length: nat := prefixLength + suffixLength;
    lengths[stringIndex] := length;
    assert offsets[..] == offsets0[stringIndex := cursor];
    assert lengths[..] == lengths0[stringIndex := length];
    var suffix;
    suffix, nextNormal, nextBig := TakeSuffix(b, count, stringIndex, suffixLength, bigSuffixOffsets, normalCursor, bigSuffixIndex);
    PlaceString(chars, offsets[stringIndex - 1], prefixLength, suffix, cursor);
    nextCursor := cursor + length;
    NextLaid(b, count, offsets0, lengths0, chars0, offsets[..], lengths[..], chars[..], stringIndex);
  }

  /** Lay every string out behind the one before it. */
  method FillUtf16(b: Bands, count: nat, suffixLengths: array<nat>, offsets: array<nat>, lengths: array<nat>, chars: array<Unit>)
    requires Shaped(b, count) && Fronted(b, count) && chars.Length == TotalLength(b, count, count) <= MAX32
    requires suffixLengths.Length == offsets.Length == lengths.Length == count
    requires suffixLengths != offsets && suffixLengths != lengths && offsets != lengths
    requires lengths[0] == 0 && forall i: nat :: 0 < i < count ==> suffixLengths[i] == |Suffix(b, count, i)|
    modifies offsets, lengths, chars
    ensures Laid(b, count, offsets[..], lengths[..], chars[..], count)
  {
    hide Shaped; hide Fronted; hide Suffix; hide Length; hide TotalLength; hide String; hide Laid; hide BigOffset;
    hide BigsBefore; hide NormalBefore; hide BigOffsets; hide FrontOk; hide Joined;
    ShapedCounts(b, count);
    offsets[0] := 0;
    FirstCounts(b.suffixes);
    FirstLengths(b, count);
    FirstLaid(b, count, offsets[..], lengths[..], chars[..]);
    var bigSuffixOffsets := BigOffsets(b.bigLengths);
    var utf16Cursor := 0;
    var normalCursor := 0;
    var bigSuffixIndex := 0;
    for stringIndex := 1 to count
      invariant utf16Cursor == TotalLength(b, count, stringIndex) <= chars.Length
      invariant normalCursor == NormalBefore(b.suffixes, stringIndex) && bigSuffixIndex == BigsBefore(b.suffixes, stringIndex)
      invariant Laid(b, count, offsets[..], lengths[..], chars[..], stringIndex)
    {
      utf16Cursor, normalCursor, bigSuffixIndex := FillOne(b, count, stringIndex, suffixLengths[stringIndex], bigSuffixOffsets, offsets,
        lengths, chars, utf16Cursor, normalCursor, bigSuffixIndex);
    }
  }

  /** The string laid out last, whose start the next one repeats. */
  lemma LastSlice(b: Bands, count: nat, offsets: seq<nat>, lengths: seq<nat>, chars: seq<Unit>, n: nat)
    requires Shaped(b, count) && Fronted(b, count) && 1 <= n < count && Laid(b, count, offsets, lengths, chars, n)
    ensures |offsets| == |lengths| == count
    ensures var from, p := offsets[n - 1], PrefixLength(b, n);
      && from + p <= TotalLength(b, count, n) <= |chars|
      && p + |Suffix(b, count, n)| == |String(b, count, n)|
      && String(b, count, n) == chars[from..from + p] + Suffix(b, count, n)
  {
    hide Length; hide String; hide Fronted; hide TotalLength; hide Suffix; hide PrefixLength; hide Joined;
    StringNext(b, count, n);
    TotalNext(b, count, n - 1);
    assert SliceOk(b, count, offsets, lengths, chars, n - 1);
    var from, p := offsets[n - 1], PrefixLength(b, n);
    StartOfSlice(chars, from, p, lengths[n - 1]);
  }

  lemma StartOfSlice(chars: seq<Unit>, from: nat, n: nat, length: nat)
    requires n <= length && from + length <= |chars|
    ensures chars[from..from + n] == chars[from..from + length][..n]
  {
  }

  /** One more string laid out. */
  lemma NextLaid(b: Bands, count: nat, offsets: seq<nat>, lengths: seq<nat>, chars: seq<Unit>,
                 offsets': seq<nat>, lengths': seq<nat>, chars': seq<Unit>, n: nat)
    requires Shaped(b, count) && Fronted(b, count) && 1 <= n < count && Laid(b, count, offsets, lengths, chars, n)
    requires |offsets| == |lengths| == count
    requires offsets' == offsets[n := TotalLength(b, count, n)] && lengths' == lengths[n := Length(b, count, n)]
    requires var from, to := TotalLength(b, count, n), TotalLength(b, count, n + 1);
      to <= |chars| == |chars'| && from <= to && chars'[..from] == chars[..from] && chars'[from..to] == String(b, count, n)
    ensures Laid(b, count, offsets', lengths', chars', n + 1)
  {
    hide Length; hide String; hide Fronted; hide TotalLength;
    var from, to := TotalLength(b, count, n), TotalLength(b, count, n + 1);
    TotalNext(b, count, n);
    assert chars'[..to] == chars'[..from] + chars'[from..to];
    assert Joined(b, count, n + 1) == Joined(b, count, n) + String(b, count, n);
    forall i: nat | i < n + 1
      ensures SliceOk(b, count, offsets', lengths', chars', i)
    {
      if i < n {
        assert SliceOk(b, count, offsets, lengths, chars, i);
        TotalNext(b, count, i);
        TotalsRise(b, count, i + 1, n);
        SliceKept(b, count, offsets, lengths, chars, offsets', lengths', chars', i, from);
      }
    }
  }

  lemma TotalNext(b: Bands, count: nat, i: nat)
    requires Shaped(b, count) && i < count
    ensures TotalLength(b, count, i + 1) == TotalLength(b, count, i) + Length(b, count, i)
  {
    hide Length;
  }

  //
  // The UTF-8 form
  //

  /** The bytes of the string from unit k on. */
  function BytesFrom(s: seq<Unit>, k: nat): seq<byte>
    requires k <= |s|
  {
    Bytes(s[k..])
  }

  /** One code point further: a pair takes two units, everything else one. */
  lemma BytesStep(s: seq<Unit>, k: nat)
    requires k < |s|
    ensures var paired := High(s[k]) && k + 1 < |s| && Low(s[k + 1]);
      if paired then BytesFrom(s, k) == Encoded(Paired(s[k], s[k + 1])) + BytesFrom(s, k + 2)
      else BytesFrom(s, k) == Encoded(s[k]) + BytesFrom(s, k + 1)
  {
    hide Encoded; hide Paired;
    var t := s[k..];
    if High(s[k]) && k + 1 < |s| && Low(s[k + 1]) {
      EncodeFront(Paired(s[k], s[k + 1]), CodePoints(s[k + 2..]));
      assert t[2..] == s[k + 2..];
    } else {
      EncodeFront(s[k], CodePoints(s[k + 1..]));
      assert t[1..] == s[k + 1..];
    }
  }

  lemma BytesEnds(s: seq<Unit>)
    ensures BytesFrom(s, |s|) == [] && BytesFrom(s, 0) == Bytes(s)
  {
    assert s[0..] == s;
  }

  /** The counting pass over one string. */
  method MeasureUtf8(s: seq<Unit>) returns (byteLength: nat)
    ensures byteLength == |Bytes(s)|
  {
    hide BytesFrom; hide Bytes; hide Encoded;
    byteLength := 0;
    var charIndex := 0;
    BytesEnds(s);
    while charIndex < |s|
      invariant charIndex <= |s| && byteLength + |BytesFrom(s, charIndex)| == |Bytes(s)|
    {
      BytesStep(s, charIndex);
      var first := s[charIndex];
      var encodedLength;
      if first <= 0x7f {
        encodedLength := 1;
      } else if first <= 0x7ff {
        encodedLength := 2;
      } else if 0xd800 <= first <= 0xdbff && charIndex + 1 < |s| && 0xdc00 <= s[charIndex + 1] <= 0xdfff {
        encodedLength := 4;
        charIndex := charIndex + 1;
      } else {
        encodedLength := 3;
      }
      byteLength := byteLength + encodedLength;
      charIndex := charIndex + 1;
    }
  }

  /** The writing pass over one string. */
  method FillUtf8(s: seq<Unit>, bytes: array<byte>, start: nat) returns (cursor: nat)
    requires start + |Bytes(s)| <= bytes.Length
    modifies bytes
    ensures cursor == start + |Bytes(s)| && bytes[..start] == old(bytes[..start]) && bytes[start..cursor] == Bytes(s)
  {
    hide BytesFrom; hide Bytes; hide Encoded;
    cursor := start;
    var charIndex := 0;
    BytesEnds(s);
    while charIndex < |s|
      invariant charIndex <= |s| && start <= cursor <= bytes.Length
      invariant bytes[..start] == old(bytes[..start]) && bytes[start..cursor] + BytesFrom(s, charIndex) == Bytes(s)
    {
      BytesStep(s, charIndex);
      var codePoint: CodePoint := s[charIndex];
      ghost var at := charIndex;
      if 0xd800 <= codePoint <= 0xdbff && charIndex + 1 < |s| {
        var low := s[charIndex + 1];
        if 0xdc00 <= low <= 0xdfff {
          codePoint := 0x1_0000 + (codePoint - 0xd800) * 0x400 + (low - 0xdc00);
          charIndex := charIndex + 1;
        }
      }
      Regroups(bytes[start..cursor], Encoded(codePoint), BytesFrom(s, charIndex + 1));
      assert cursor + |Encoded(codePoint)| <= bytes.Length;
      ghost var before := bytes[..];
      var next := PutCodePoint(codePoint, bytes, cursor);
      SliceGrows(before, bytes[..], start, cursor, next);
      cursor := next;
      charIndex := charIndex + 1;
    }
    assert bytes[start..cursor] + [] == bytes[start..cursor];
  }

  lemma Regroups(a: seq<byte>, b: seq<byte>, c: seq<byte>)
    ensures a + (b + c) == a + b + c && |a + (b + c)| == |a| + |b| + |c|
  {
  }

  /** The bytes of one code point at the cursor. */
  method PutCodePoint(codePoint: CodePoint, bytes: array<byte>, cursor: nat) returns (next: nat)
    requires cursor + |Encoded(codePoint)| <= bytes.Length
    modifies bytes
    ensures next == cursor + |Encoded(codePoint)|
    ensures bytes[..cursor] == old(bytes[..cursor]) && bytes[cursor..next] == Encoded(codePoint)
  {
    next := cursor;
    if codePoint <= 0x7f {
      bytes[next] := codePoint;
      next := next + 1;
    } else if codePoint <= 0x7ff {
      bytes[next] := 0xc0 + codePoint / 0x40;
      bytes[next + 1] := 0x80 + codePoint % 0x40;
      next := next + 2;
    } else if codePoint <= 0xffff {
      bytes[next] := 0xe0 + codePoint / 0x1000;
      bytes[next + 1] := 0x80 + codePoint / 0x40 % 0x40;
      bytes[next + 2] := 0x80 + codePoint % 0x40;
      next := next + 3;
    } else {
      bytes[next] := 0xf0 + codePoint / 0x4_0000;
      bytes[next + 1] := 0x80 + codePoint / 0x1000 % 0x40;
      bytes[next + 2] := 0x80 + codePoint / 0x40 % 0x40;
      bytes[next + 3] := 0x80 + codePoint % 0x40;
      next := next + 4;
    }
  }

  /** A slice that grows at its end. */
  lemma SliceGrows<T>(before: seq<T>, after: seq<T>, start: nat, cursor: nat, next: nat)
    requires start <= cursor <= next <= |after| && cursor <= |before| && after[..cursor] == before[..cursor]
    ensures after[..start] == before[..start]
    ensures after[start..next] == before[start..cursor] + after[cursor..next]
  {
    assert after[..start] == after[..cursor][..start] == before[..cursor][..start];
    assert after[start..cursor] == after[..cursor][start..] == before[..cursor][start..] == before[start..cursor];
  }

  /** Text i stands at its offset. */
  predicate TextAt<T(==)>(text: seq<T>, offset: nat, length: nat, buffer: seq<T>) {
    length == |text| && offset + length <= |buffer| && buffer[offset..offset + length] == text
  }

  ghost predicate TextsAt(texts: seq<seq<Unit>>, offsets: seq<nat>, lengths: seq<nat>, chars: seq<Unit>) {
    && |offsets| == |lengths| == |texts|
    && forall i: nat :: i < |texts| ==> TextAt(texts[i], offsets[i], lengths[i], chars)
  }

  /** The UTF-8 slices of the first n strings: each follows the one before it, and holds its string. */
  ghost predicate BytesSized(texts: seq<seq<Unit>>, offsets: seq<nat>, lengths: seq<nat>, n: nat) {
    && |offsets| == |lengths| == |texts| && n <= |texts|
    && forall i: nat :: i < n ==> offsets[i] == |JoinedBytes(texts, i)| && lengths[i] == |Bytes(texts[i])|
  }

  lemma {:induction false} JoinedRise(texts: seq<seq<Unit>>, i: nat, n: nat)
    requires i <= n <= |texts|
    ensures JoinedBytes(texts, i) <= JoinedBytes(texts, n)
    decreases n
  {
    hide Bytes;
    if i < n { JoinedRise(texts, i, n - 1); }
  }

  lemma JoinedFirst(texts: seq<seq<Unit>>)
    requires |texts| > 0 && texts[0] == []
    ensures JoinedBytes(texts, 0) == [] && JoinedBytes(texts, 1) == [] && Bytes(texts[0]) == []
  {
    assert CodePoints([]) == [];
    assert JoinedBytes(texts, 1) == JoinedBytes(texts, 0) + Bytes(texts[0]);
  }

  lemma JoinedNext(texts: seq<seq<Unit>>, i: nat)
    requires i < |texts|
    ensures JoinedBytes(texts, i + 1) == JoinedBytes(texts, i) + Bytes(texts[i])
    ensures |JoinedBytes(texts, i + 1)| <= |JoinedBytes(texts, |texts|)|
  {
    hide Bytes;
    JoinedRise(texts, i + 1, |texts|);
  }

  /** Count the bytes of every string. */
  method MeasureAllUtf8(ghost texts: seq<seq<Unit>>, utf16Offsets: array<nat>, utf16Lengths: array<nat>, chars: array<Unit>,
                        offsets: array<nat>, lengths: array<nat>) returns (status: Status, total: nat)
    requires |texts| > 0 && texts[0] == [] && TextsAt(texts, utf16Offsets[..], utf16Lengths[..], chars[..])
    requires offsets.Length == lengths.Length == |texts| && offsets != lengths
    requires offsets != utf16Offsets && offsets != utf16Lengths && lengths != utf16Offsets && lengths != utf16Lengths
    modifies offsets, lengths
    ensures status == Success <==> |JoinedBytes(texts, |texts|)| <= MAX32
    ensures status == Success ==> total == |JoinedBytes(texts, |texts|)| && BytesSized(texts, offsets[..], lengths[..], |texts|)
  {
    hide JoinedBytes; hide Bytes;
    offsets[0], lengths[0] := 0, 0;
    total := 0;
    JoinedFirst(texts);
    for stringIndex := 1 to offsets.Length
      invariant total == |JoinedBytes(texts, stringIndex)| <= MAX32
      invariant BytesSized(texts, offsets[..], lengths[..], stringIndex)
    {
      JoinedNext(texts, stringIndex);
      var offset, length := utf16Offsets[stringIndex], utf16Lengths[stringIndex];
      assert TextAt(texts[stringIndex], utf16Offsets[..][stringIndex], utf16Lengths[..][stringIndex], chars[..]);
      var byteLength := MeasureUtf8(chars[offset..offset + length]);
      if total > MAX32 || byteLength > MAX32 {
        return IntegerOverflow, total;
      }
      offsets[stringIndex] := total;
      lengths[stringIndex] := byteLength;
      if total + byteLength > SIZE_MAX || total + byteLength > MAX32 {
        return IntegerOverflow, total;
      }
      total := total + byteLength;
    }
    status := Success;
  }

  /** Write the bytes of every string. */
  method FillAllUtf8(ghost texts: seq<seq<Unit>>, utf16Offsets: array<nat>, utf16Lengths: array<nat>, chars: array<Unit>,
                     bytes: array<byte>) returns (status: Status)
    requires |texts| > 0 && texts[0] == [] && TextsAt(texts, utf16Offsets[..], utf16Lengths[..], chars[..])
    requires bytes.Length == |JoinedBytes(texts, |texts|)|
    modifies bytes
    ensures status == Success && bytes[..] == JoinedBytes(texts, |texts|)
  {
    hide JoinedBytes; hide Bytes;
    var cursor := 0;
    JoinedFirst(texts);
    for stringIndex := 1 to utf16Offsets.Length
      invariant cursor == |JoinedBytes(texts, stringIndex)| <= bytes.Length && bytes[..cursor] == JoinedBytes(texts, stringIndex)
    {
      JoinedNext(texts, stringIndex);
      var offset, length := utf16Offsets[stringIndex], utf16Lengths[stringIndex];
      assert TextAt(texts[stringIndex], utf16Offsets[..][stringIndex], utf16Lengths[..][stringIndex], chars[..]);
      var start := cursor;
      cursor := FillUtf8(chars[offset..offset + length], bytes, start);
      assert bytes[..cursor] == bytes[..start] + bytes[start..cursor];
    }
    assert bytes[..cursor] == bytes[..];
    status := if cursor == bytes.Length then Success else InvalidNetworkResponse;
  }

  //
  // The whole
  //

  ghost function Texts(b: Bands, count: nat): (r: seq<seq<Unit>>)
    requires Shaped(b, count) && Fronted(b, count)
    ensures |r| == count && r[0] == [] && forall i: nat :: i < count ==> r[i] == String(b, count, i)
  {
    hide Fronted;
    seq(count, i requires 0 <= i < count => String(b, count, i))
  }

  lemma LaidTexts(b: Bands, count: nat, offsets: seq<nat>, lengths: seq<nat>, chars: seq<Unit>)
    requires Shaped(b, count) && Fronted(b, count) && Laid(b, count, offsets, lengths, chars, count)
    ensures TextsAt(Texts(b, count), offsets, lengths, chars)
  {
    hide Fronted; hide String; hide Texts;
    forall i: nat | i < count
      ensures TextAt(Texts(b, count)[i], offsets[i], lengths[i], chars)
    {
      assert SliceOk(b, count, offsets, lengths, chars, i);
    }
  }

  /** Every UTF-8 slice, decoded, is its string: the bytes lose nothing and no slice reaches into another. */
  lemma SlicesDecode(texts: seq<seq<Unit>>, offsets: seq<nat>, lengths: seq<nat>, bytes: seq<byte>, i: nat)
    requires BytesSized(texts, offsets, lengths, |texts|) && bytes == JoinedBytes(texts, |texts|) && i < |texts|
    ensures offsets[i] + lengths[i] <= |bytes| && (i + 1 < |texts| ==> offsets[i] + lengths[i] == offsets[i + 1])
    ensures var slice := bytes[offsets[i]..offsets[i] + lengths[i]];
      Decode(slice) == Some(CodePoints(texts[i])) && ToUtf16(Decode(slice).value) == texts[i]
  {
    hide Decode; hide ToUtf16; hide CodePoints; hide Bytes; hide JoinedBytes;
    JoinedRise(texts, i, |texts|);
    JoinedNext(texts, i);
    JoinedRise(texts, i + 1, |texts|);
    LastPiece(bytes, JoinedBytes(texts, i), Bytes(texts[i]));
    BytesInvert(texts[i]);
  }

  lemma LastPiece(bytes: seq<byte>, front: seq<byte>, piece: seq<byte>)
    requires front + piece <= bytes
    ensures |front| + |piece| <= |bytes| && bytes[|front|..|front| + |piece|] == piece
  {
    var all := front + piece;
    forall k | 0 <= k < |piece|
      ensures bytes[|front| + k] == piece[k]
    {
      assert bytes[|front| + k] == all[|front| + k];
    }
  }

  /** The string tables of the constant pool. */
  class CpBands {
    const utf8Count: nat
    var suffixLengths: array<nat>
    var utf16Offsets: array<nat>
    var utf16Lengths: array<nat>
    var utf16Chars: array<Unit>
    var utf8Offsets: array<nat>
    var utf8Lengths: array<nat>
    var utf8Chars: array<byte>

    constructor (count: nat)
      ensures Valid() && utf8Count == count && fresh(Tables())
    {
      utf8Count := count;
      suffixLengths, utf16Offsets, utf16Lengths := new nat[count], new nat[count], new nat[count];
      utf8Offsets, utf8Lengths := new nat[count], new nat[count];
      utf16Chars, utf8Chars := new Unit[0], new byte[0];
    }

    ghost function Tables(): set<object>
      reads this
    {
      {suffixLengths, utf16Offsets, utf16Lengths, utf8Offsets, utf8Lengths}
    }

    ghost predicate Valid()
      reads this
    {
      && suffixLengths.Length == utf16Offsets.Length == utf16Lengths.Length == utf8Offsets.Length == utf8Lengths.Length == utf8Count
      && suffixLengths != utf16Offsets && suffixLengths != utf16Lengths && suffixLengths != utf8Offsets && suffixLengths != utf8Lengths
      && utf16Offsets != utf16Lengths && utf16Offsets != utf8Offsets && utf16Offsets != utf8Lengths
      && utf16Lengths != utf8Offsets && utf16Lengths != utf8Lengths && utf8Offsets != utf8Lengths
    }

    /**
     * Read the strings: exactly when the supply goes on with string bands in which no prefix is too long and
     * neither total goes beyond 32 bits. The two fill passes meet their counts.
     */
    method ReadUtf8Bands(source: BandSource) returns (status: Status, ghost delivered: bool, ghost b: Bands)
      requires Valid() && source.Valid()
      modifies this, Tables(), source
      ensures Valid() && source.Valid()
      ensures delivered <==> StringsSpelt(utf8Count, source.supply[old(source.position)..])
      ensures delivered ==>
                && SpellsStrings(b, utf8Count, source.supply[old(source.position)..])
                && source.delivered == old(source.delivered) + StringReadings(b)
      ensures status == Success <==>
                && delivered && Fronted(b, utf8Count) && TotalLength(b, utf8Count, utf8Count) <= MAX32
                && |JoinedBytes(Texts(b, utf8Count), utf8Count)| <= MAX32
      ensures status == Success ==>
                && Laid(b, utf8Count, utf16Offsets[..], utf16Lengths[..], utf16Chars[..], utf8Count)
                && utf16Chars.Length == TotalLength(b, utf8Count, utf8Count)
                && BytesSized(Texts(b, utf8Count), utf8Offsets[..], utf8Lengths[..], utf8Count)
                && utf8Chars[..] == JoinedBytes(Texts(b, utf8Count), utf8Count)
    {
      hide Shaped; hide Fronted; hide Suffix; hide Length; hide TotalLength; hide String; hide Laid; hide TextsAt; hide BytesSized;
      hide JoinedBytes; hide StringReadings; hide Flatten; hide StringWords; hide BigsFit; hide NormalBefore;
      var bands;
      status, bands := ReadStringBands(source, utf8Count);
      b, delivered := bands, status == Success;
      if status != Success {
        return;
      }
      ShapedCounts(bands, utf8Count);
      var totalUtf16Chars;
      status, totalUtf16Chars := MeasureStrings(bands, utf8Count, suffixLengths, utf16Lengths);
      if status != Success {
        return;
      }
      FirstLengths(bands, utf8Count);
      utf16Chars := new Unit[totalUtf16Chars];
      FillUtf16(bands, utf8Count, suffixLengths, utf16Offsets, utf16Lengths, utf16Chars);
      ghost var texts := Texts(bands, utf8Count);
      LaidTexts(bands, utf8Count, utf16Offsets[..], utf16Lengths[..], utf16Chars[..]);
      var totalUtf8Bytes;
      status, totalUtf8Bytes := MeasureAllUtf8(texts, utf16Offsets, utf16Lengths, utf16Chars, utf8Offsets, utf8Lengths);
      if status != Success {
        return;
      }
      utf8Chars := new byte[totalUtf8Bytes];
      status := FillAllUtf8(texts, utf16Offsets, utf16Lengths, utf16Chars, utf8Chars);
    }
  }
}
