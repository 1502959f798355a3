// Cutting concatenated DEFLATE streams apart. A stream's length does not depend on what follows it, so
// the cut falls exactly on the boundaries.
module DeflateSplit {
  import opened Common
  import opened DeflateBits
  import opened Huffman
  import opened DeflateScan

  //
  // What is read does not depend on what follows
  //

  lemma BitsStable(a: seq<byte>, b: seq<byte>, n: nat, pos: nat, count: nat)
    requires Agree(a, b, n) && pos + count <= 8 * n
    ensures BitsRead(a, pos, count).Some? && BitsRead(b, pos, count) == BitsRead(a, pos, count)
  {
    hide Agree; hide BitsValue;
    AgreeSizes(a, b, n);
    AgreeBits(a, b, n, pos, count);
  }

  lemma {:induction false} DecodeStable(a: seq<byte>, b: seq<byte>, n: nat, pos: nat, codes: seq<CodeEntry>, length: nat)
    requires Agree(a, b, n) && DecodeFrom(a, pos, codes, length).Some? && DecodeFrom(a, pos, codes, length).value.1 <= 8 * n
    ensures DecodeFrom(b, pos, codes, length) == DecodeFrom(a, pos, codes, length)
    decreases MAX_CODE_LENGTH + 1 - length
  {
    hide Find; hide BitsValue; hide Agree;
    AgreeSizes(a, b, n);
    AgreeBits(a, b, n, pos, length);
    if Find(codes, 0, length, BitsValue(a, pos, length)).None? {
      DecodeStable(a, b, n, pos, codes, length + 1);
    }
  }

  lemma SymbolStable(a: seq<byte>, b: seq<byte>, n: nat, pos: nat, codes: seq<CodeEntry>)
    requires Agree(a, b, n) && DecodeSymbol(a, pos, codes).Some? && DecodeSymbol(a, pos, codes).value.1 <= 8 * n
    ensures DecodeSymbol(b, pos, codes) == DecodeSymbol(a, pos, codes)
  {
    DecodeStable(a, b, n, pos, codes, 1);
  }

  lemma {:induction false} LengthCodesStable(a: seq<byte>, b: seq<byte>, n: nat, pos: nat, count: nat)
    requires Agree(a, b, n) && LengthCodes(a, pos, count).Some? && pos + 3 * count <= 8 * n
    ensures LengthCodes(b, pos, count) == LengthCodes(a, pos, count)
    decreases count
  {
    hide Agree; hide BitsRead; hide OrderAt; hide Repeat;
    if count > 0 {
      LengthCodesStable(a, b, n, pos, count - 1);
      BitsStable(a, b, n, pos + 3 * (count - 1), 3);
    }
  }

  lemma RunStable(a: seq<byte>, b: seq<byte>, n: nat, pos: nat, symbol: nat, done: seq<nat>)
    requires Agree(a, b, n) && Run(a, pos, symbol, done).Some? && Run(a, pos, symbol, done).value.1 <= 8 * n
    ensures Run(b, pos, symbol, done) == Run(a, pos, symbol, done)
  {
    hide Agree; hide BitsValue; hide Repeat;
    if 16 <= symbol <= 18 {
      BitsStable(a, b, n, pos, if symbol == 16 then 2 else if symbol == 17 then 3 else 7);
    }
  }

  lemma {:induction false} LengthsStable(a: seq<byte>, b: seq<byte>, n: nat, pos: nat, codes: seq<CodeEntry>, total: nat, done: seq<nat>)
    requires Agree(a, b, n) && |done| <= total && Lengths(a, pos, codes, total, done).Some?
    requires Lengths(a, pos, codes, total, done).value.1 <= 8 * n
    ensures Lengths(b, pos, codes, total, done) == Lengths(a, pos, codes, total, done)
    decreases total - |done|
  {
    hide Agree; hide DecodeSymbol; hide Run;
    if |done| < total {
      var s := DecodeSymbol(a, pos, codes).value;
      var run := Run(a, s.1, s.0, done).value;
      SymbolStable(a, b, n, pos, codes);
      RunStable(a, b, n, s.1, s.0, done);
      LengthsStable(a, b, n, run.1, codes, total, done + run.0);
    }
  }

  lemma TreesStable(a: seq<byte>, b: seq<byte>, n: nat, pos: nat)
    requires Agree(a, b, n) && DynamicTrees(a, pos).Some? && DynamicTrees(a, pos).value.end <= 8 * n
    ensures DynamicTrees(b, pos) == DynamicTrees(a, pos)
  {
    hide Agree; hide BitsValue; hide LengthCodes; hide Lengths; hide Accepted; hide Entries;
    var literals := BitsRead(a, pos, 5).value.0 + 257;
    var distances := BitsRead(a, pos + 5, 5).value.0 + 1;
    var count := BitsRead(a, pos + 10, 4).value.0 + 4;
    var table := LengthCodes(a, pos + 14, count).value;
    BitsStable(a, b, n, pos, 5);
    BitsStable(a, b, n, pos + 5, 5);
    BitsStable(a, b, n, pos + 10, 4);
    LengthCodesStable(a, b, n, pos + 14, count);
    LengthsStable(a, b, n, pos + 14 + 3 * count, Entries(table, 19), literals + distances, []);
  }

  lemma MatchStable(a: seq<byte>, b: seq<byte>, n: nat, pos: nat, symbol: nat, distances: seq<CodeEntry>)
    requires Agree(a, b, n) && SkipMatch(a, pos, symbol, distances).Some? && SkipMatch(a, pos, symbol, distances).value <= 8 * n
    ensures SkipMatch(b, pos, symbol, distances) == SkipMatch(a, pos, symbol, distances)
  {
    hide Agree; hide DecodeSymbol; hide LengthExtra; hide DistanceExtra; hide BitsValue;
    var extra := BitsRead(a, pos, LengthExtra(symbol)).value;
    var d := DecodeSymbol(a, extra.1, distances).value;
    BitsStable(a, b, n, pos, LengthExtra(symbol));
    SymbolStable(a, b, n, extra.1, distances);
    BitsStable(a, b, n, d.1, DistanceExtra(d.0));
  }

  lemma {:induction false} BlockStable(a: seq<byte>, b: seq<byte>, n: nat, pos: nat, literals: seq<CodeEntry>, distances: seq<CodeEntry>)
    requires Agree(a, b, n) && SkipBlock(a, pos, literals, distances).Some? && SkipBlock(a, pos, literals, distances).value <= 8 * n
    ensures SkipBlock(b, pos, literals, distances) == SkipBlock(a, pos, literals, distances)
    decreases 8 * |a| - pos
  {
    hide Agree; hide DecodeSymbol; hide SkipMatch;
    var s := DecodeSymbol(a, pos, literals).value;
    SymbolStable(a, b, n, pos, literals);
    if s.0 < 256 {
      BlockStable(a, b, n, s.1, literals, distances);
    } else if s.0 > 256 {
      MatchStable(a, b, n, s.1, s.0, distances);
      BlockStable(a, b, n, SkipMatch(a, s.1, s.0, distances).value, literals, distances);
    }
  }

  lemma StoredStable(a: seq<byte>, b: seq<byte>, n: nat, pos: nat)
    requires Agree(a, b, n) && SkipStored(a, pos).Some? && SkipStored(a, pos).value <= 8 * n
    ensures SkipStored(b, pos) == SkipStored(a, pos)
  {
    hide Agree; hide BitsValue;
    AgreeSizes(a, b, n);
    BitsStable(a, b, n, Aligned(pos), 16);
    BitsStable(a, b, n, Aligned(pos) + 16, 16);
  }

  lemma BodyStable(a: seq<byte>, b: seq<byte>, n: nat, pos: nat, kind: nat)
    requires Agree(a, b, n) && SkipBody(a, pos, kind).Some? && SkipBody(a, pos, kind).value <= 8 * n
    ensures SkipBody(b, pos, kind) == SkipBody(a, pos, kind)
  {
    hide Agree; hide SkipStored; hide SkipBlock; hide DynamicTrees; hide Entries; hide FixedLiterals; hide FixedDistances; hide Accepted;
    if kind == 0 {
      StoredStable(a, b, n, pos);
    } else {
      var t := if kind == 1 then Trees(FixedLiterals(), FixedDistances(), pos) else DynamicTrees(a, pos).value;
      if kind != 1 { TreesStable(a, b, n, pos); }
      BlockStable(a, b, n, t.end, Entries(t.literals, |t.literals|), Entries(t.distances, |t.distances|));
    }
  }

  lemma {:induction false} BlocksStable(a: seq<byte>, b: seq<byte>, n: nat, pos: nat)
    requires Agree(a, b, n) && Blocks(a, pos).Some? && Blocks(a, pos).value <= 8 * n
    ensures Blocks(b, pos) == Blocks(a, pos)
    decreases 8 * |a| - pos
  {
    hide Agree; hide SkipBody; hide BitsValue;
    var final := BitsRead(a, pos, 1).value.0;
    var kind := BitsRead(a, pos + 1, 2).value.0;
    var end := SkipBody(a, pos + 3, kind).value;
    BitsStable(a, b, n, pos, 1);
    BitsStable(a, b, n, pos + 1, 2);
    BodyStable(a, b, n, pos + 3, kind);
    if final == 0 { BlocksStable(a, b, n, end); }
  }

  /** The length found for a stream is found again whatever bytes follow the stream. */
  lemma LengthIsStable(data: seq<byte>, rest: seq<byte>)
    requires StreamLength(data).Some?
    ensures var n := StreamLength(data).value; StreamLength(data[..n] + rest) == Some(n)
  {
    hide Blocks;
    var n := StreamLength(data).value;
    var other := data[..n] + rest;
    assert other[..n] == data[..n];
    BlocksStable(data, other, n, 0);
  }

  //
  // Cutting
  //

  /** The bytes are one whole stream and nothing else. */
  ghost predicate Complete(stream: seq<byte>) {
    StreamLength(stream) == Some(|stream|)
  }

  ghost function Cut(data: seq<byte>): Option<seq<seq<byte>>>
    decreases |data|
  {
    if data == [] then Some([])
    else
      match StreamLength(data)
      case None => None
      case Some(n) =>
        match Cut(data[n..])
        case None => None
        case Some(rest) => Some([data[..n]] + rest)
  }

  function Concat(streams: seq<seq<byte>>): seq<byte> {
    if |streams| == 0 then [] else streams[0] + Concat(streams[1..])
  }

  ghost predicate AllComplete(streams: seq<seq<byte>>) {
    forall k :: 0 <= k < |streams| ==> Complete(streams[k])
  }

  lemma {:induction false} CutConcat(streams: seq<seq<byte>>)
    requires AllComplete(streams)
    ensures Cut(Concat(streams)) == Some(streams)
  {
    hide StreamLength;
    if |streams| > 0 {
      var s, rest := streams[0], Concat(streams[1..]);
      assert Complete(s);
      NotEmpty(s);
      LengthIsStable(s, rest);
      assert s[..|s|] == s;
      assert (s + rest)[|s|..] == rest && (s + rest)[..|s|] == s;
      CutConcat(streams[1..]);
      assert streams == [s] + streams[1..];
    }
  }

  lemma NotEmpty(s: seq<byte>)
    requires Complete(s)
    ensures |s| > 0
  {
  }

  lemma {:induction false} CutSound(data: seq<byte>)
    requires Cut(data).Some?
    ensures Concat(Cut(data).value) == data && AllComplete(Cut(data).value)
    decreases |data|
  {
    hide StreamLength;
    if data != [] {
      var n := StreamLength(data).value;
      var streams := Cut(data).value;
      LengthIsStable(data, []);
      assert data[..n] + [] == data[..n];
      CutSound(data[n..]);
      assert streams[1..] == Cut(data[n..]).value;
      assert data == data[..n] + data[n..];
    }
  }

  /** Cutting finds exactly the division into complete streams. */
  lemma CutIsConcat(data: seq<byte>, streams: seq<seq<byte>>)
    ensures Cut(data) == Some(streams) <==> Concat(streams) == data && AllComplete(streams)
  {
    hide AllComplete; hide Concat; hide Cut;
    if Cut(data) == Some(streams) {
      CutSound(data);
    } else if Concat(streams) == data && AllComplete(streams) {
      CutConcat(streams);
    }
  }

  //
  // Inflating stream by stream; inflate itself is any function of the stream's bytes
  //

  /** The inflated length of the first k streams. */
  function Total(streams: seq<seq<byte>>, inflate: seq<byte> -> Option<seq<byte>>, k: nat): nat
    requires k <= |streams|
  {
    if k == 0 then 0
    else
      Total(streams, inflate, k - 1)
        + match inflate(streams[k - 1])
          case None => 0
          case Some(out) => |out|
  }

  /** Stream k inflates, and there is room for it: some left to begin with, and enough. */
  predicate Inflates(streams: seq<seq<byte>>, inflate: seq<byte> -> Option<seq<byte>>, capacity: nat, k: nat)
    requires k < |streams|
  {
    inflate(streams[k]).Some? && Total(streams, inflate, k) < capacity && Total(streams, inflate, k + 1) <= capacity
  }

  /** The first n streams stand one behind the other in the destination. */
  ghost predicate Tiled(destination: seq<byte>, slices: seq<(nat, nat)>, streams: seq<seq<byte>>,
                        inflate: seq<byte> -> Option<seq<byte>>, n: nat)
    requires n <= |streams|
  {
    && |slices| == n
    && forall k: nat :: k < n ==> SliceOk(destination, slices, streams, inflate, k)
  }

  predicate SliceOk(destination: seq<byte>, slices: seq<(nat, nat)>, streams: seq<seq<byte>>,
                    inflate: seq<byte> -> Option<seq<byte>>, k: nat)
    requires k < |slices| && k < |streams|
  {
    && inflate(streams[k]).Some?
    && slices[k] == (Total(streams, inflate, k), |inflate(streams[k]).value|)
    && Total(streams, inflate, k + 1) <= |destination|
    && destination[Total(streams, inflate, k)..Total(streams, inflate, k + 1)] == inflate(streams[k]).value
  }

  method Store(destination: array<byte>, at: nat, bytes: seq<byte>)
    requires at + |bytes| <= destination.Length
    modifies destination
    ensures destination[..] == old(destination[..at]) + bytes + old(destination[at + |bytes|..])
  {
    for k := 0 to |bytes|
      invariant destination[..] == old(destination[..at]) + bytes[..k] + old(destination[at + k..])
    {
      destination[at + k] := bytes[k];
    }
    assert bytes[..|bytes|] == bytes;
  }

  method DecodeConcatenated(compressed: seq<byte>, destination: array<byte>, inflate: seq<byte> -> Option<seq<byte>>, maxStreams: nat)
    returns (status: Status, decodedLength: nat, slices: seq<(nat, nat)>)
    modifies destination
    ensures status == Success <==>
              && compressed != [] && Cut(compressed).Some? && |Cut(compressed).value| <= maxStreams
              && forall k: nat :: k < |Cut(compressed).value| ==> Inflates(Cut(compressed).value, inflate, destination.Length, k)
    ensures status == Success ==>
              var streams := Cut(compressed).value;
              && decodedLength == Total(streams, inflate, |streams|) <= destination.Length
              && Tiled(destination[..], slices, streams, inflate, |streams|)
              && destination[decodedLength..] == old(destination[decodedLength..])
  {
    hide StreamLength; hide Tiled; hide Total; hide Cut; hide Inflates;
    decodedLength, slices := 0, [];
    if compressed == [] {
      return InvalidNetworkResponse, decodedLength, slices;
    }
    var compressedOffset := 0;
    ghost var done: seq<seq<byte>> := [];
    NoStreams(compressed, inflate, destination[..]);
    while compressedOffset < |compressed|
      invariant compressedOffset <= |compressed| && |done| == |slices| <= maxStreams
      invariant CutAfter(compressed, done, compressedOffset)
      invariant decodedLength == Total(done, inflate, |done|) <= destination.Length
      invariant Tiled(destination[..], slices, done, inflate, |done|)
      invariant forall k: nat :: k < |done| ==> Inflates(done, inflate, destination.Length, k)
      invariant destination[decodedLength..] == old(destination[decodedLength..])
      decreases |compressed| - compressedOffset
    {
      ghost var rest := Cut(compressed[compressedOffset..]);
      CutMore(compressed, done, compressedOffset);
      if decodedLength >= destination.Length {
        RefusedAt(compressed, done, compressedOffset, inflate, destination.Length);
        return BufferTooSmall, decodedLength, slices;
      }
      var length;
      status, length := FindStreamLength(compressed[compressedOffset..]);
      if status != Success {
        return;
      }
      var stream := compressed[compressedOffset..][..length];
      var out := inflate(stream);
      if out.None? {
        RefusedAt(compressed, done, compressedOffset, inflate, destination.Length);
        return InvalidNetworkResponse, decodedLength, slices;
      }
      if |out.value| > destination.Length - decodedLength {
        RefusedAt(compressed, done, compressedOffset, inflate, destination.Length);
        return BufferTooSmall, decodedLength, slices;
      }
      if |slices| >= maxStreams {
        return InvalidNetworkResponse, decodedLength, slices;
      }
      ghost var before := destination[..];
      Store(destination, decodedLength, out.value);
      StreamDone(done, stream, inflate, slices, before, destination[..], destination.Length);
      slices := slices + [(decodedLength, |out.value|)];
      decodedLength := decodedLength + |out.value|;
      compressedOffset := compressedOffset + length;
      done := done + [stream];
    }
    AllCut(compressed, done);
    status := Success;
  }

  /** `done` are the streams before the offset; the division of the rest completes that of the whole. */
  ghost predicate CutAfter(compressed: seq<byte>, done: seq<seq<byte>>, offset: nat) {
    && offset <= |compressed|
    && (match Cut(compressed[offset..])
        case None => Cut(compressed).None?
        case Some(rest) => Cut(compressed) == Some(done + rest))
  }

  lemma NoStreams(compressed: seq<byte>, inflate: seq<byte> -> Option<seq<byte>>, destination: seq<byte>)
    ensures CutAfter(compressed, [], 0) && Total([], inflate, 0) == 0 && Tiled(destination, [], [], inflate, 0)
  {
    assert compressed[0..] == compressed;
    if Cut(compressed).Some? { assert [] + Cut(compressed).value == Cut(compressed).value; }
  }

  lemma CutMore(compressed: seq<byte>, done: seq<seq<byte>>, offset: nat)
    requires offset < |compressed| && CutAfter(compressed, done, offset)
    ensures StreamLength(compressed[offset..]).None? ==> Cut(compressed).None?
    ensures StreamLength(compressed[offset..]).Some? ==>
              var n := StreamLength(compressed[offset..]).value;
              CutAfter(compressed, done + [compressed[offset..][..n]], offset + n)
    ensures Cut(compressed).Some? ==>
              && |Cut(compressed).value| > |done| && Cut(compressed).value[..|done|] == done && StreamLength(compressed[offset..]).Some?
              && Cut(compressed).value[|done|] == compressed[offset..][..StreamLength(compressed[offset..]).value]
  {
    hide StreamLength;
    var tail := compressed[offset..];
    if StreamLength(tail).Some? {
      var n := StreamLength(tail).value;
      assert tail[n..] == compressed[offset + n..];
      if Cut(tail[n..]).Some? {
        var rest := Cut(tail[n..]).value;
        assert (done + [tail[..n]]) + rest == done + ([tail[..n]] + rest);
      }
    }
  }

  lemma AllCut(compressed: seq<byte>, done: seq<seq<byte>>)
    requires CutAfter(compressed, done, |compressed|)
    ensures Cut(compressed) == Some(done)
  {
    assert compressed[|compressed|..] == [];
    assert done + [] == done;
  }

  lemma {:induction false} TotalPrefix(a: seq<seq<byte>>, b: seq<seq<byte>>, inflate: seq<byte> -> Option<seq<byte>>, k: nat)
    requires k <= |a| && k <= |b| && forall j :: 0 <= j < k ==> a[j] == b[j]
    ensures Total(a, inflate, k) == Total(b, inflate, k)
  {
    if k > 0 { TotalPrefix(a, b, inflate, k - 1); }
  }

  /** If the next stream cannot be stored, the whole cannot be decoded. */
  lemma RefusedAt(compressed: seq<byte>, done: seq<seq<byte>>, offset: nat, inflate: seq<byte> -> Option<seq<byte>>, capacity: nat)
    requires offset < |compressed| && CutAfter(compressed, done, offset)
    requires
      || Total(done, inflate, |done|) >= capacity
      || (StreamLength(compressed[offset..]).Some?
          && var out := inflate(compressed[offset..][..StreamLength(compressed[offset..]).value]);
             out.None? || Total(done, inflate, |done|) + |out.value| > capacity)
    ensures Cut(compressed).Some? ==> |Cut(compressed).value| > |done| && !Inflates(Cut(compressed).value, inflate, capacity, |done|)
  {
    hide StreamLength; hide Cut;
    CutMore(compressed, done, offset);
    if Cut(compressed).Some? {
      var all := Cut(compressed).value;
      forall j | 0 <= j < |done|
        ensures all[j] == done[j]
      {
        assert all[..|done|][j] == done[j];
      }
      TotalPrefix(all, done, inflate, |done|);
    }
  }

  lemma StreamDone(done: seq<seq<byte>>, stream: seq<byte>, inflate: seq<byte> -> Option<seq<byte>>, slices: seq<(nat, nat)>,
                   before: seq<byte>, after: seq<byte>, capacity: nat)
    requires inflate(stream).Some? && |before| == |after| == capacity
    requires |slices| == |done| && Tiled(before, slices, done, inflate, |done|)
    requires forall k: nat :: k < |done| ==> Inflates(done, inflate, capacity, k)
    requires var at := Total(done, inflate, |done|);
      && at < capacity && at + |inflate(stream).value| <= capacity
      && after == before[..at] + inflate(stream).value + before[at + |inflate(stream).value|..]
    ensures var all := done + [stream];
      var at := Total(done, inflate, |done|);
      && Total(all, inflate, |all|) == at + |inflate(stream).value|
      && Tiled(after, slices + [(at, |inflate(stream).value|)], all, inflate, |all|)
      && forall k: nat :: k < |all| ==> Inflates(all, inflate, capacity, k)
  {
    hide Total;
    var all := done + [stream];
    var at := Total(done, inflate, |done|);
    var longer := slices + [(at, |inflate(stream).value|)];
    forall k: nat | k <= |done|
      ensures Total(all, inflate, k) == Total(done, inflate, k)
    {
      TotalPrefix(all, done, inflate, k);
    }
    TotalNext(all, inflate, |done|);
    forall k: nat | k < |all|
      ensures SliceOk(after, longer, all, inflate, k) && Inflates(all, inflate, capacity, k)
    {
      if k < |done| {
        assert SliceOk(before, slices, done, inflate, k) && Inflates(done, inflate, capacity, k);
        TotalGrows(done, inflate, k + 1, |done|);
        TotalNext(done, inflate, k);
        assert after[Total(done, inflate, k)..Total(done, inflate, k + 1)]
            == before[Total(done, inflate, k)..Total(done, inflate, k + 1)];
      }
    }
  }

  lemma TotalNext(streams: seq<seq<byte>>, inflate: seq<byte> -> Option<seq<byte>>, k: nat)
    requires k < |streams|
    ensures Total(streams, inflate, k) <= Total(streams, inflate, k + 1)
    ensures inflate(streams[k]).Some? ==> Total(streams, inflate, k + 1) == Total(streams, inflate, k) + |inflate(streams[k]).value|
  {
  }

  lemma {:induction false} TotalGrows(streams: seq<seq<byte>>, inflate: seq<byte> -> Option<seq<byte>>, a: nat, b: nat)
    requires a <= b <= |streams|
    ensures Total(streams, inflate, a) <= Total(streams, inflate, b)
    decreases b
  {
    if a < b { TotalGrows(streams, inflate, a, b - 1); }
  }
}
