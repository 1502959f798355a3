// Printed numbers, ranges and selector lists are read back, and a case that overlaps none is not refused.
module LayoutReading {
  import opened Common
  import opened LayoutModel
  import opened LayoutParser
  import opened LayoutNumbers
  import opened LayoutParserSound
  import opened LayoutCompile
  import opened LayoutSyntax

  /** The text reads s from position p on. */
  predicate Has(text: string, p: nat, s: string) {
    p + |s| <= |text| && text[p..p + |s|] == s
  }

  lemma HasSplit(text: string, p: nat, a: string, b: string)
    requires Has(text, p, a + b)
    ensures Has(text, p, a) && Has(text, p + |a|, b)
  {
    var s := text[p..p + |a + b|];
    assert s[..|a|] == a && s[|a|..] == b;
    assert text[p..p + |a|] == s[..|a|] && text[p + |a|..p + |a| + |b|] == s[|a|..];
  }

  lemma HasAt(text: string, p: nat, s: string, k: nat)
    requires Has(text, p, s) && k < |s|
    ensures At(text, p + k) == s[k] && p + k < |text|
  {
    assert text[p + k] == text[p..p + |s|][k];
  }

  //
  // Numbers
  //

  lemma {:induction false} DigitsRead(text: string, p: nat, n: nat)
    requires n <= 0x8000_0000 && Has(text, p, PrintNat(n))
    ensures Digits(text, p, 0) == Digits(text, p + |PrintNat(n)|, n)
    decreases n
  {
    var last := [('0' as int + n % 10) as char];
    if n < 10 {
      HasAt(text, p, last, 0);
    } else {
      var high := PrintNat(n / 10);
      HasSplit(text, p, high, last);
      DigitsRead(text, p, n / 10);
      HasAt(text, p + |high|, last, 0);
      assert n / 10 * 10 + n % 10 == n;
    }
  }

  /** The digits of a magnitude, read to their end. */
  lemma MagnitudeRead(text: string, p: nat, m: nat)
    requires m <= 0x8000_0000 && Has(text, p, PrintNat(m)) && !IsDigit(At(text, p + |PrintNat(m)|))
    ensures p < |text| && IsDigit(text[p]) && At(text, p) != '-'
    ensures Digits(text, p, 0) == Some((m, p + |PrintNat(m)|))
  {
    hide Digits; hide Has;
    DigitsRead(text, p, m);
    DigitsStop(text, p + |PrintNat(m)|, m);
    HasAt(text, p, PrintNat(m), 0);
  }

  lemma NumberIs(text: string, p: nat, m: nat, end: nat)
    requires p < |text| && IsDigit(text[p]) && At(text, p) != '-' && Digits(text, p, 0) == Some((m, end)) && m < 0x8000_0000
    ensures Number(text, p) == Some((m, end))
  {
    hide Digits;
  }

  lemma NegativeIs(text: string, p: nat, v: int, end: nat)
    requires At(text, p) == '-' && p + 1 < |text| && IsDigit(text[p + 1]) && Digits(text, p + 1, 0) == Some((-v, end))
    ensures Number(text, p) == Some((v, end))
  {
    hide Digits;
  }

  /** A printed 32-bit integer that no digit follows is read back. */
  lemma NumberRead(text: string, p: nat, v: int)
    requires -0x8000_0000 <= v < 0x8000_0000 && Has(text, p, PrintInt(v))
    requires !IsDigit(At(text, p + |PrintInt(v)|))
    ensures Number(text, p) == Some((v, p + |PrintInt(v)|))
  {
    hide Digits; hide PrintNat; hide Has; hide Number; hide IsDigit; hide At;
    if v < 0 {
      HasSplit(text, p, "-", PrintNat(-v));
      HasAt(text, p, "-", 0);
      MagnitudeRead(text, p + 1, -v);
      NegativeIs(text, p, v, p + |PrintInt(v)|);
    } else {
      MagnitudeRead(text, p, v);
      NumberIs(text, p, v, p + |PrintInt(v)|);
    }
  }

  lemma SingleRead(text: string, p: nat, v: int)
    requires -0x8000_0000 <= v < 0x8000_0000 && Has(text, p, PrintInt(v)) && At(text, p + |PrintInt(v)|) in {',', ')'}
    ensures Selector(text, p) == Some((SelectorRange(v, v), p + |PrintInt(v)|))
  {
    hide Number; hide PrintInt; hide Has; hide Digits; hide PrintNat; hide At;
    NumberRead(text, p, v);
  }

  lemma SpanRead(text: string, p: nat, r: SelectorRange)
    requires ValidRange(r) && Has(text, p, PrintInt(r.first) + "-" + PrintInt(r.last))
    requires At(text, p + |PrintInt(r.first)| + 1 + |PrintInt(r.last)|) in {',', ')'}
    ensures Selector(text, p) == Some((r, p + |PrintInt(r.first)| + 1 + |PrintInt(r.last)|))
  {
    hide Number; hide PrintInt; hide Has; hide Digits; hide PrintNat; hide At;
    var a, b := PrintInt(r.first), PrintInt(r.last);
    HasSplit(text, p, a + "-", b);
    HasSplit(text, p, a, "-");
    HasAt(text, p + |a|, "-", 0);
    NumberRead(text, p, r.first);
    NumberRead(text, p + |a| + 1, r.last);
  }

  /** A printed range followed by a comma or parenthesis is read back. */
  lemma RangeRead(text: string, p: nat, r: SelectorRange)
    requires ValidRange(r) && Has(text, p, PrintRange(r))
    requires At(text, p + |PrintRange(r)|) in {',', ')'}
    ensures Selector(text, p) == Some((r, p + |PrintRange(r)|))
  {
    hide Selector; hide Number; hide PrintInt; hide Has; hide Digits; hide PrintNat; hide At;
    if r.first == r.last {
      SingleRead(text, p, r.first);
    } else {
      SpanRead(text, p, r);
    }
  }

  //
  // The cases already built
  //

  /** From row c to row `last` the siblings carry the ranges of `done`, in order. */
  predicate ChainHas(elements: seq<Element>, selectors: seq<SelectorRange>, c: nat, last: nat, done: seq<Case>)
    decreases |done|
  {
    if |done| == 0 then c == NO_INDEX && last == NO_INDEX
    else
      && c <= last < |elements|
      && elements[c].selectorOffset + elements[c].selectorCount <= |selectors|
      && selectors[elements[c].selectorOffset..elements[c].selectorOffset + elements[c].selectorCount] == done[0].ranges
      && (if |done| == 1 then c == last && elements[c].nextSibling == NO_INDEX
          else c < elements[c].nextSibling && ChainHas(elements, selectors, elements[c].nextSibling, last, done[1..]))
  }

  predicate ApartFrom(done: seq<Case>, range: SelectorRange) {
    forall a, j :: 0 <= a < |done| && 0 <= j < |done[a].ranges| ==> !Overlap(done[a].ranges[j], range)
  }

  lemma {:induction false} ChainOverlap(elements: seq<Element>, selectors: seq<SelectorRange>, more: seq<SelectorRange>,
                                        c: nat, last: nat, done: seq<Case>, range: SelectorRange)
    requires ChainHas(elements, selectors, c, last, done) && selectors <= more && |elements| < NO_INDEX
    requires ApartFrom(done, range)
    ensures !AnyOverlap(elements, more, c, range)
    decreases |done|
  {
    if |done| > 0 {
      var off := elements[c].selectorOffset;
      forall k | off <= k < off + elements[c].selectorCount && k < |more|
        ensures !Overlap(more[k], range)
      {
        assert more[k] == selectors[off..off + elements[c].selectorCount][k - off];
        assert more[k] == done[0].ranges[k - off];
      }
      if |done| > 1 {
        forall a, j | 0 <= a < |done[1..]| && 0 <= j < |done[1..][a].ranges|
          ensures !Overlap(done[1..][a].ranges[j], range)
        {
          assert done[1..][a] == done[a + 1];
        }
        ChainOverlap(elements, selectors, more, elements[c].nextSibling, last, done[1..], range);
      }
    }
  }

  /** Linking a new last case extends the chain by it. */
  lemma {:induction false} ChainExtends(elements: seq<Element>, selectors: seq<SelectorRange>, after: seq<Element>,
                                        more: seq<SelectorRange>, c: nat, last: nat, n: nat, done: seq<Case>, x: Case)
    requires |done| > 0 && ChainHas(elements, selectors, c, last, done) && selectors <= more
    requires |elements| == n < |after|
    requires forall i :: c <= i < n && i != last ==> after[i] == elements[i]
    requires after[last] == elements[last].(nextSibling := n)
    requires ChainHas(after, more, n, n, [x])
    ensures ChainHas(after, more, c, n, done + [x])
    decreases |done|
  {
    assert (done + [x])[1..] == done[1..] + [x];
    var off := elements[c].selectorOffset;
    assert more[off..off + elements[c].selectorCount] == selectors[off..off + elements[c].selectorCount];
    if |done| == 1 {
      assert done[1..] + [x] == [x];
    } else {
      ChainExtends(elements, selectors, after, more, elements[c].nextSibling, last, n, done[1..], x);
    }
  }

  //
  // Selectors of a case
  //

  lemma SelectorsTurn(text: string, p: nat, elements: seq<Element>, more: seq<SelectorRange>, c: nat,
                      r: SelectorRange, q: nat)
    requires Selector(text, p) == Some((r, q)) && |more| <= |text| && !AnyOverlap(elements, more, c, r)
    ensures At(text, q) == ')' ==> Selectors(text, p, elements, more, c) == Some((more + [r], q + 1))
    ensures At(text, q) == ',' ==> Selectors(text, p, elements, more, c) == Selectors(text, q + 1, elements, more + [r], c)
  {
    hide Selector; hide AnyOverlap;
  }

  lemma RangesUnfold(ranges: seq<SelectorRange>)
    requires |ranges| > 1
    ensures PrintRanges(ranges) == PrintRange(ranges[0]) + "," + PrintRanges(ranges[1..])
  {
    hide PrintRange;
  }

  lemma RangesSplit(text: string, p: nat, ranges: seq<SelectorRange>)
    requires |ranges| > 1 && Has(text, p, PrintRanges(ranges))
    ensures var q := p + |PrintRange(ranges[0])|;
      && Has(text, p, PrintRange(ranges[0])) && At(text, q) == ','
      && Has(text, q + 1, PrintRanges(ranges[1..]))
      && |PrintRanges(ranges)| == |PrintRange(ranges[0])| + 1 + |PrintRanges(ranges[1..])|
  {
    hide PrintRange; hide PrintRanges; hide Has; hide At;
    RangesUnfold(ranges);
    var first := PrintRange(ranges[0]);
    HasSplit(text, p, first + ",", PrintRanges(ranges[1..]));
    HasSplit(text, p, first, ",");
    HasAt(text, p + |first|, ",", 0);
  }

  /** The printed ranges of a case are read back, and none is refused as overlapping. */
  lemma {:induction false} RangesRead(text: string, p: nat, elements: seq<Element>, selectors: seq<SelectorRange>,
                                      more: seq<SelectorRange>, c: nat, last: nat, done: seq<Case>, ranges: seq<SelectorRange>)
    requires |ranges| > 0 && (forall k :: 0 <= k < |ranges| ==> ValidRange(ranges[k]) && ApartFrom(done, ranges[k]))
    requires ChainHas(elements, selectors, c, last, done) && selectors <= more && |elements| < NO_INDEX
    requires |more| <= p <= |text|
    requires Has(text, p, PrintRanges(ranges)) && At(text, p + |PrintRanges(ranges)|) == ')'
    ensures Selectors(text, p, elements, more, c) == Some((more + ranges, p + |PrintRanges(ranges)| + 1))
    decreases |ranges|
  {
    hide AnyOverlap; hide Selector; hide ChainHas; hide ApartFrom; hide Selectors; hide PrintRange; hide Has; hide ValidRange;
    ChainOverlap(elements, selectors, more, c, last, done, ranges[0]);
    var q := p + |PrintRange(ranges[0])|;
    if |ranges| == 1 {
      RangeRead(text, p, ranges[0]);
      SelectorsTurn(text, p, elements, more, c, ranges[0], q);
      assert ranges == [ranges[0]];
    } else {
      RangesSplit(text, p, ranges);
      RangeRead(text, p, ranges[0]);
      SelectorsTurn(text, p, elements, more, c, ranges[0], q);
      var more' := more + [ranges[0]];
      SelectorsInside(text, p, ranges[0], q);
      RangesRead(text, q + 1, elements, selectors, more', c, last, done, ranges[1..]);
      assert more' + ranges[1..] == more + ranges;
    }
  }

  lemma SelectorsInside(text: string, p: nat, r: SelectorRange, q: nat)
    requires Selector(text, p) == Some((r, q)) && At(text, q) == ','
    ensures p < q < |text|
  {
  }
}
