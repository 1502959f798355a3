// The header of a dynamic block: the scanner reads a header exactly where the format has one, with its two codes.
module DeflateHeader {
  import opened Common
  import opened DeflateBits
  import opened DeflateFormat
  import opened DeflateWords
  import opened Huffman
  import opened DeflateScan
  import opened DeflateGrammar

  //
  // The code-length code
  //

  function PlaceOf(symbol: nat): nat {
    match symbol
    case 16 => 0 case 17 => 1 case 18 => 2 case 0 => 3 case 8 => 4 case 7 => 5 case 9 => 6 case 6 => 7 case 10 => 8
    case 5 => 9 case 11 => 10 case 4 => 11 case 12 => 12 case 3 => 13 case 13 => 14 case 2 => 15 case 14 => 16
    case 1 => 17 case _ => 18
  }

  lemma OrderSize()
    ensures |ORDER| == 19
  {
  }

  lemma OrderIs(i: nat)
    requires i < 19
    ensures ORDER[i] == OrderAt(i) < 19 && PlaceOf(ORDER[i]) == i
  {
  }

  lemma OrderFull(symbol: nat)
    requires symbol < 19
    ensures PlaceOf(symbol) < 19 && ORDER[PlaceOf(symbol)] == symbol
  {
  }

  /** The lengths sent determine all of them. */
  lemma SentOnce(sent: seq<nat>, a: seq<nat>, b: seq<nat>)
    requires SentAs(sent, a) && SentAs(sent, b)
    ensures a == b
  {
    hide ORDER;
    OrderSize();
    forall s: nat | s < 19
      ensures a[s] == b[s]
    {
      OrderFull(s);
      var i := PlaceOf(s);
      assert a[ORDER[i]] == b[ORDER[i]];
    }
  }

  lemma NothingSent()
    ensures SentAs([], Repeat(0, 19))
  {
  }

  lemma SentMore(sent: seq<nat>, codes: seq<nat>, v: nat)
    requires SentAs(sent, codes) && |sent| < 19
    ensures OrderAt(|sent|) < 19 && SentAs(sent + [v], codes[OrderAt(|sent|) := v])
  {
    hide ORDER; hide OrderAt; hide PlaceOf;
    OrderSize();
    var n := |sent|;
    OrderIs(n);
    forall i: nat | i < 19
      ensures ORDER[i] < 19 && codes[OrderAt(n) := v][ORDER[i]] == if i < n + 1 then (sent + [v])[i] else 0
    {
      OrderIs(i);
    }
  }

  /** Three bits for each length sent. */
  ghost predicate Threes(data: seq<byte>, pos: nat, sent: seq<nat>) {
    forall i: nat :: i < |sent| ==> Field(data, pos + 3 * i, 3, sent[i])
  }

  lemma {:induction false} CodesRead(data: seq<byte>, pos: nat, sent: seq<nat>)
    requires |sent| <= 19 && Threes(data, pos, sent)
    ensures LengthCodes(data, pos, |sent|).Some? && SentAs(sent, LengthCodes(data, pos, |sent|).value)
    decreases |sent|
  {
    hide Field; hide SentAs; hide OrderAt; hide BitsValue;
    if sent == [] {
      NothingSent();
    } else {
      var n := |sent| - 1;
      CodesRead(data, pos, sent[..n]);
      assert Field(data, pos + 3 * n, 3, sent[n]);
      FieldIs(data, pos + 3 * n, 3, sent[n]);
      SentMore(sent[..n], LengthCodes(data, pos, n).value, sent[n]);
      assert sent[..n] + [sent[n]] == sent;
    }
  }

  lemma {:induction false} CodesSent(data: seq<byte>, pos: nat, n: nat) returns (sent: seq<nat>)
    requires n <= 19 && LengthCodes(data, pos, n).Some?
    ensures |sent| == n && Threes(data, pos, sent)
  {
    hide Field; hide OrderAt; hide BitsValue;
    if n == 0 {
      sent := [];
    } else {
      var front := CodesSent(data, pos, n - 1);
      var v := BitsRead(data, pos + 3 * (n - 1), 3).value.0;
      FieldIs(data, pos + 3 * (n - 1), 3, v);
      sent := front + [v];
    }
  }

  //
  // Runs
  //

  function SymbolOf(r: Run): nat {
    match r
    case Plain(length) => length
    case CopyLast(_) => 16
    case ShortZeros(_) => 17
    case LongZeros(_) => 18
  }

  lemma RunRead(data: seq<byte>, pos: nat, r: DeflateFormat.Run, codes: seq<nat>, next: nat, done: seq<nat>)
    requires IsCode(codes) && RunAt(data, pos, r, codes, next) && Added(r, done).Some?
    ensures SymbolOf(r) < |codes|
    ensures DecodeSymbol(data, pos, Entries(codes, |codes|)) == Some((SymbolOf(r), pos + codes[SymbolOf(r)]))
    ensures DeflateScan.Run(data, pos + codes[SymbolOf(r)], SymbolOf(r), done) == Some((Added(r, done).value, next))
  {
    hide IsCode; hide Word; hide Entries; hide DecodeSymbol; hide Field; hide BitsValue;
    hide DeflateScan.Run; hide Repeat; hide Added;
    var s := SymbolOf(r);
    WordDecodes(data, pos, codes, s);
    AddedIs(r, done);
    if r.Plain? {
      PlainRun(data, pos + codes[s], s, done);
    } else {
      FieldIs(data, pos + codes[s], ExtraBits(r), r.count - Least(r));
      CountedRun(data, pos + codes[s], r, done);
    }
  }

  function ExtraBits(r: DeflateFormat.Run): nat
    requires !r.Plain?
  {
    match r
    case CopyLast(_) => 2
    case ShortZeros(_) => 3
    case LongZeros(_) => 7
  }

  function Least(r: DeflateFormat.Run): nat
    requires !r.Plain?
  {
    if r.LongZeros? then 11 else 3
  }

  lemma AddedIs(r: DeflateFormat.Run, done: seq<nat>)
    ensures Added(r, done).Some? ==>
              Added(r, done).value == match r
                case Plain(length) => [length]
                case CopyLast(count) => (if done == [] then [] else Repeat(done[|done| - 1], count))
                case ShortZeros(count) => Repeat(0, count)
                case LongZeros(count) => Repeat(0, count)
    ensures Added(r, done).None? <==> r.CopyLast? && done == []
  {
    match r
    case Plain(length) =>
    case CopyLast(count) =>
      if done != [] { assert Added(r, done).value == Repeat(done[|done| - 1], count); }
    case ShortZeros(count) => assert Added(r, done).value == Repeat(0, count);
    case LongZeros(count) => assert Added(r, done).value == Repeat(0, count);
  }

  lemma PlainRun(data: seq<byte>, at: nat, symbol: nat, done: seq<nat>)
    requires symbol <= 15
    ensures DeflateScan.Run(data, at, symbol, done) == Some(([symbol], at))
  {
  }

  lemma CountedRun(data: seq<byte>, at: nat, r: DeflateFormat.Run, done: seq<nat>)
    requires !r.Plain? && RunOk(r) && (r.CopyLast? ==> done != [])
    requires BitsRead(data, at, ExtraBits(r)) == Some((r.count - Least(r), at + ExtraBits(r)))
    ensures DeflateScan.Run(data, at, SymbolOf(r), done)
         == Some((Repeat(if r.CopyLast? then done[|done| - 1] else 0, r.count), at + ExtraBits(r)))
  {
    hide BitsRead; hide Repeat;
  }

  lemma RunOf(data: seq<byte>, pos: nat, codes: seq<nat>, done: seq<nat>) returns (r: DeflateFormat.Run)
    requires IsCode(codes) && DecodeSymbol(data, pos, Entries(codes, |codes|)).Some?
    requires var s := DecodeSymbol(data, pos, Entries(codes, |codes|)).value;
      DeflateScan.Run(data, s.1, s.0, done).Some?
    ensures var s := DecodeSymbol(data, pos, Entries(codes, |codes|)).value;
      var run := DeflateScan.Run(data, s.1, s.0, done).value;
      RunAt(data, pos, r, codes, run.1) && Added(r, done) == Some(run.0)
  {
    hide IsCode; hide Word; hide Entries; hide DecodeSymbol; hide Field; hide BitsValue;
    DecodedWord(data, pos, codes);
    var s := DecodeSymbol(data, pos, Entries(codes, |codes|)).value;
    var run := DeflateScan.Run(data, s.1, s.0, done).value;
    Powers();
    if s.0 <= 15 {
      r := Plain(s.0);
    } else if s.0 == 16 {
      FieldIs(data, s.1, 2, |run.0| - 3);
      r := CopyLast(|run.0|);
      assert run.0 == seq(|run.0|, _ => done[|done| - 1]);
    } else if s.0 == 17 {
      FieldIs(data, s.1, 3, |run.0| - 3);
      r := ShortZeros(|run.0|);
      assert run.0 == seq(|run.0|, _ => 0);
    } else {
      FieldIs(data, s.1, 7, |run.0| - 11);
      r := LongZeros(|run.0|);
      assert run.0 == seq(|run.0|, _ => 0);
    }
  }

  lemma Powers()
    ensures Pow2(2) == 4 && Pow2(3) == 8 && Pow2(7) == 128
  {
    assert Pow2(4) == 16 && Pow2(5) == 32 && Pow2(6) == 64;
  }

  /** Every run adds something. */
  lemma {:induction false} ExpandedRises(runs: seq<DeflateFormat.Run>, before: seq<nat>)
    requires Expanded(runs, before).Some? && forall i :: 0 <= i < |runs| ==> RunOk(runs[i])
    ensures |Expanded(runs, before).value| >= |before| + |runs|
    decreases |runs|
  {
    if |runs| > 0 {
      assert RunOk(runs[0]);
      ExpandedRises(runs[1..], before + Added(runs[0], before).value);
    }
  }

  lemma {:induction false} RunsOk(data: seq<byte>, pos: nat, runs: seq<DeflateFormat.Run>, codes: seq<nat>, end: nat)
    requires RunsAt(data, pos, runs, codes, end)
    ensures forall i :: 0 <= i < |runs| ==> RunOk(runs[i])
    decreases |runs|
  {
    hide Word; hide Field;
    if |runs| > 0 {
      var next: nat :| RunAt(data, pos, runs[0], codes, next) && RunsAt(data, next, runs[1..], codes, end);
      RunsOk(data, next, runs[1..], codes, end);
      forall i | 0 <= i < |runs|
        ensures RunOk(runs[i])
      {
        assert i > 0 ==> runs[i] == runs[1..][i - 1];
      }
    }
  }

  lemma {:induction false} RunsRead(data: seq<byte>, pos: nat, runs: seq<DeflateFormat.Run>, codes: seq<nat>, end: nat, done: seq<nat>)
    requires IsCode(codes) && RunsAt(data, pos, runs, codes, end) && Expanded(runs, done).Some?
    ensures var all := Expanded(runs, done).value;
      |done| <= |all| && Lengths(data, pos, Entries(codes, |codes|), |all|, done) == Some((all, end))
    decreases |runs|
  {
    hide IsCode; hide RunAt; hide Entries; hide DecodeSymbol; hide DeflateScan.Run; hide Added; hide RunOk;
    RunsOk(data, pos, runs, codes, end);
    ExpandedRises(runs, done);
    if |runs| > 0 {
      var next: nat :| RunAt(data, pos, runs[0], codes, next) && RunsAt(data, next, runs[1..], codes, end);
      RunRead(data, pos, runs[0], codes, next, done);
      RunsRead(data, next, runs[1..], codes, end, done + Added(runs[0], done).value);
    }
  }

  lemma {:induction false} RunsOf(data: seq<byte>, pos: nat, codes: seq<nat>, total: nat, done: seq<nat>)
    returns (runs: seq<DeflateFormat.Run>)
    requires IsCode(codes) && |done| <= total && Lengths(data, pos, Entries(codes, |codes|), total, done).Some?
    ensures var r := Lengths(data, pos, Entries(codes, |codes|), total, done).value;
      RunsAt(data, pos, runs, codes, r.1) && Expanded(runs, done) == Some(r.0)
    decreases total - |done|
  {
    hide IsCode; hide RunAt; hide Entries; hide DecodeSymbol; hide DeflateScan.Run; hide Added; hide RunOk;
    if |done| == total {
      runs := [];
    } else {
      var s := DecodeSymbol(data, pos, Entries(codes, |codes|)).value;
      var run := DeflateScan.Run(data, s.1, s.0, done).value;
      var r := RunOf(data, pos, codes, done);
      var rest := RunsOf(data, run.1, codes, total, done + run.0);
      runs := [r] + rest;
      assert runs[1..] == rest;
    }
  }

  //
  // The header
  //

  ghost predicate Announces(data: seq<byte>, pos: nat, literals: nat, distances: nat, count: nat) {
    && 257 <= literals && 1 <= distances && 4 <= count
    && Field(data, pos, 5, literals - 257) && Field(data, pos + 5, 5, distances - 1) && Field(data, pos + 10, 4, count - 4)
  }

  lemma HeaderRead(data: seq<byte>, pos: nat, h: Header, end: nat)
    requires HeaderAt(data, pos, h, end)
    ensures TreesOf(data, pos + 14, |h.literals|, |h.distances|, |h.sent|) == Some(Trees(h.literals, h.distances, end))
  {
    hide IsCode; hide RunsAt; hide Field; hide SentAs; hide Entries; hide Lengths; hide LengthCodes; hide Expanded; hide Accepted;
    var at, n := pos + 14, |h.sent|;
    var all := h.literals + h.distances;
    assert Threes(data, at, h.sent);
    CodesRead(data, at, h.sent);
    SentOnce(h.sent, h.codes, LengthCodes(data, at, n).value);
    assert |h.codes| == 19 by { SentSize(h.sent, h.codes); }
    CodeIsAccepted(h.codes);
    CodeIsAccepted(h.literals);
    CodeIsAccepted(h.distances);
    RunsRead(data, at + 3 * n, h.runs, h.codes, end, []);
    assert all[..|h.literals|] == h.literals && all[|h.literals|..] == h.distances && all[256] == h.literals[256];
  }

  lemma SentSize(sent: seq<nat>, codes: seq<nat>)
    requires SentAs(sent, codes)
    ensures |codes| == 19
  {
  }

  lemma HeaderOf(data: seq<byte>, pos: nat, literals: nat, distances: nat, count: nat) returns (h: Header)
    requires Announces(data, pos, literals, distances, count) && TreesOf(data, pos + 14, literals, distances, count).Some?
    ensures var t := TreesOf(data, pos + 14, literals, distances, count).value;
      HeaderAt(data, pos, h, t.end) && h.literals == t.literals && h.distances == t.distances
  {
    hide IsCode; hide RunsAt; hide Field; hide SentAs; hide Entries; hide Lengths; hide LengthCodes; hide Expanded; hide Accepted;
    var at := pos + 14;
    var t := TreesOf(data, at, literals, distances, count).value;
    var codes := LengthCodes(data, at, count).value;
    var sent := CodesSent(data, at, count);
    CodesRead(data, at, sent);
    CodeIsAccepted(codes);
    CodeIsAccepted(t.literals);
    CodeIsAccepted(t.distances);
    var runs := RunsOf(data, at + 3 * count, codes, literals + distances, []);
    h := Header(sent, codes, runs, t.literals, t.distances);
    assert t.literals + t.distances == Lengths(data, at + 3 * count, Entries(codes, 19), literals + distances, []).value.0;
  }

  /** The trees are those of the header, and there are trees exactly where a header stands. */
  lemma HeaderIsGrammar(data: seq<byte>, pos: nat, t: Trees)
    ensures DynamicTrees(data, pos) == Some(t)
       <==> exists h :: HeaderAt(data, pos, h, t.end) && h.literals == t.literals && h.distances == t.distances
  {
    hide TreesOf; hide BitsValue; hide Field; hide HeaderAt;
    if h :| HeaderAt(data, pos, h, t.end) && h.literals == t.literals && h.distances == t.distances {
      HeaderSizes(data, pos, h, t.end);
      FieldIs(data, pos, 5, |h.literals| - 257);
      FieldIs(data, pos + 5, 5, |h.distances| - 1);
      FieldIs(data, pos + 10, 4, |h.sent| - 4);
      HeaderRead(data, pos, h, t.end);
    }
    if DynamicTrees(data, pos) == Some(t) {
      var a, b, c := BitsRead(data, pos, 5).value.0, BitsRead(data, pos + 5, 5).value.0, BitsRead(data, pos + 10, 4).value.0;
      FieldIs(data, pos, 5, a);
      FieldIs(data, pos + 5, 5, b);
      FieldIs(data, pos + 10, 4, c);
      var h := HeaderOf(data, pos, a + 257, b + 1, c + 4);
    }
  }

  lemma HeaderSizes(data: seq<byte>, pos: nat, h: Header, end: nat)
    requires HeaderAt(data, pos, h, end)
    ensures Announces(data, pos, |h.literals|, |h.distances|, |h.sent|)
  {
  }
}
