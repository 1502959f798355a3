// The writer of the string bands: any list of strings can be front-coded, with any admissible prefix
// lengths and any choice of big suffixes, and reading the bands gives the strings back.
module FrontCoding {
  import opened Common
  import opened Utf8Bands

  /** What a writer chooses for each string: how much of the string before it to repeat, and where the rest goes. */
  datatype Choice = Choice(cut: nat, big: bool)

  /** The repeated units agree; string 0 is empty, string 1 repeats nothing, and an empty suffix must be a big one. */
  predicate ChoiceOk(texts: seq<seq<Unit>>, choices: seq<Choice>, i: nat)
    requires |texts| == |choices| && 1 <= i < |texts|
  {
    && choices[i].cut <= |texts[i]| && choices[i].cut <= |texts[i - 1]|
    && texts[i][..choices[i].cut] == texts[i - 1][..choices[i].cut]
    && (i == 1 ==> choices[i].cut == 0) && (choices[i].cut == |texts[i]| ==> choices[i].big)
  }

  predicate Admissible(texts: seq<seq<Unit>>, choices: seq<Choice>) {
    && |texts| == |choices| && |texts| > 0 && texts[0] == []
    && forall i: nat :: 1 <= i < |texts| ==> ChoiceOk(texts, choices, i)
  }

  /** The bands of the first n strings. */
  function Coded(texts: seq<seq<Unit>>, choices: seq<Choice>, n: nat): Bands
    requires Admissible(texts, choices) && n <= |texts|
  {
    if n <= 1 then Bands([], [], [], [], [])
    else
      var b, i := Coded(texts, choices, n - 1), n - 1;
      assert ChoiceOk(texts, choices, i);
      var suffix := texts[i][choices[i].cut..];
      Extended(b, n - 1, choices[i].cut, suffix, choices[i].big)
  }

  /** One more string. */
  function Extended(b: Bands, count: nat, cut: nat, suffix: seq<Unit>, big: bool): Bands {
    Bands(
      if count > 1 then b.prefixes + [cut] else b.prefixes,
      b.suffixes + [if big then 0 else |suffix|],
      if big then b.normal else b.normal + suffix,
      if big then b.bigLengths + [|suffix|] else b.bigLengths,
      if big then b.big + suffix else b.big)
  }

  lemma {:induction false} CountsKept(suffixes: seq<nat>, more: seq<nat>, i: nat)
    requires i <= |suffixes| + 1
    ensures BigsBefore(suffixes + more, i) == BigsBefore(suffixes, i) && NormalBefore(suffixes + more, i) == NormalBefore(suffixes, i)
  {
    if i > 1 { CountsKept(suffixes, more, i - 1); }
  }

  lemma {:induction false} OffsetKept(bigLengths: seq<nat>, more: seq<nat>, k: nat)
    requires k <= |bigLengths|
    ensures BigOffset(bigLengths + more, k) == BigOffset(bigLengths, k)
  {
    if k > 0 { OffsetKept(bigLengths, more, k - 1); }
  }

  /** The counts after one more suffix. */
  lemma CountsNext(suffixes: seq<nat>, last: nat)
    ensures var n := |suffixes| + 1;
      && BigsBefore(suffixes + [last], n) == BigsBefore(suffixes, n) && NormalBefore(suffixes + [last], n) == NormalBefore(suffixes, n)
      && BigsBefore(suffixes + [last], n + 1) == BigsBefore(suffixes, n) + (if last == 0 then 1 else 0)
      && NormalBefore(suffixes + [last], n + 1) == NormalBefore(suffixes, n) + last
  {
    CountsKept(suffixes, [last], |suffixes| + 1);
  }

  lemma OffsetNext(bigLengths: seq<nat>, last: nat)
    ensures BigOffset(bigLengths + [last], |bigLengths|) == BigOffset(bigLengths, |bigLengths|)
    ensures BigOffset(bigLengths + [last], |bigLengths| + 1) == BigOffset(bigLengths, |bigLengths|) + last
  {
    OffsetKept(bigLengths, [last], |bigLengths|);
  }

  lemma ExtendedShaped(b: Bands, count: nat, cut: nat, suffix: seq<Unit>, big: bool)
    requires Shaped(b, count) && (suffix == [] ==> big)
    ensures Shaped(Extended(b, count, cut, suffix, big), count + 1)
  {
    hide BigsBefore; hide NormalBefore; hide BigOffset;
    CountsNext(b.suffixes, if big then 0 else |suffix|);
    OffsetNext(b.bigLengths, |suffix|);
  }

  /** The new suffix is the last one. */
  lemma ExtendedLast(b: Bands, count: nat, cut: nat, suffix: seq<Unit>, big: bool)
    requires Shaped(b, count) && Shaped(Extended(b, count, cut, suffix, big), count + 1)
    requires (count == 1 ==> cut == 0) && (suffix == [] ==> big)
    ensures var e := Extended(b, count, cut, suffix, big);
      PrefixLength(e, count) == cut && Suffix(e, count + 1, count) == suffix
  {
    hide BigsBefore; hide NormalBefore; hide BigOffset; hide Suffix;
    var e := Extended(b, count, cut, suffix, big);
    SuffixIs(e, count + 1, count);
    CountsNext(b.suffixes, if big then 0 else |suffix|);
    OffsetNext(b.bigLengths, |suffix|);
  }

  /** Earlier strings keep their prefixes and suffixes. */
  lemma ExtendedKeeps(b: Bands, count: nat, cut: nat, suffix: seq<Unit>, big: bool, i: nat)
    requires Shaped(b, count) && Shaped(Extended(b, count, cut, suffix, big), count + 1) && 1 <= i < count
    ensures var e := Extended(b, count, cut, suffix, big);
      PrefixLength(e, i) == PrefixLength(b, i) && Suffix(e, count + 1, i) == Suffix(b, count, i)
  {
    var e := Extended(b, count, cut, suffix, big);
    CountsKept(b.suffixes, [if big then 0 else |suffix|], i);
    SuffixIs(b, count, i);
    SuffixIs(e, count + 1, i);
    if b.suffixes[i - 1] == 0 && big {
      OffsetKept(b.bigLengths, [|suffix|], BigsBefore(b.suffixes, i));
    }
  }

  /** Strings of the extended bands are those of the bands. */
  lemma {:induction false} StringsKept(b: Bands, count: nat, e: Bands, i: nat)
    requires Shaped(b, count) && Fronted(b, count) && Shaped(e, count + 1) && Fronted(e, count + 1) && i < count
    requires forall k: nat :: 1 <= k < count ==>
               PrefixLength(e, k) == PrefixLength(b, k) && Suffix(e, count + 1, k) == Suffix(b, count, k)
    ensures String(e, count + 1, i) == String(b, count, i)
  {
    hide Shaped; hide Fronted; hide Suffix;
    if i > 0 {
      StringsKept(b, count, e, i - 1);
      StringNext(b, count, i);
      StringNext(e, count + 1, i);
    }
  }

  lemma FrontedNext(b: Bands, count: nat, e: Bands)
    requires Shaped(b, count) && Fronted(b, count) && Shaped(e, count + 1)
    requires forall k: nat :: 1 <= k < count ==>
               PrefixLength(e, k) == PrefixLength(b, k) && Suffix(e, count + 1, k) == Suffix(b, count, k)
    requires PrefixLength(e, count) <= Length(b, count, count - 1)
    ensures Fronted(e, count + 1)
  {
    hide Shaped; hide Suffix; hide PrefixLength;
    var n := count + 1;
    forall i: nat
      ensures FrontOk(e, n, i)
    {
      if 1 <= i < count { assert FrontOk(b, count, i); }
    }
  }

  /** Reading what was written gives every string back. */
  lemma {:induction false} CodedInverts(texts: seq<seq<Unit>>, choices: seq<Choice>, n: nat)
    requires Admissible(texts, choices) && 1 <= n <= |texts|
    ensures Shaped(Coded(texts, choices, n), n) && Fronted(Coded(texts, choices, n), n)
    ensures forall i: nat :: i < n ==> String(Coded(texts, choices, n), n, i) == texts[i]
  {
    hide Shaped; hide Fronted; hide Suffix; hide String; hide Extended;
    if n == 1 {
      OneString();
    } else {
      CodedInverts(texts, choices, n - 1);
      var i := n - 1;
      var b, e := Coded(texts, choices, i), Coded(texts, choices, n);
      assert ChoiceOk(texts, choices, i);
      var cut, suffix := choices[i].cut, texts[i][choices[i].cut..];
      ExtendedShaped(b, i, cut, suffix, choices[i].big);
      ExtendedLast(b, i, cut, suffix, choices[i].big);
      ShapedCounts(b, i);
      ShapedCounts(e, n);
      forall k: nat | 1 <= k < i
        ensures PrefixLength(e, k) == PrefixLength(b, k) && Suffix(e, n, k) == Suffix(b, i, k)
      {
        ExtendedKeeps(b, i, cut, suffix, choices[i].big, k);
      }
      assert String(b, i, i - 1) == texts[i - 1];
      FrontedNext(b, i, e);
      forall k: nat | k < n
        ensures String(e, n, k) == texts[k]
      {
        StringsKept(b, i, e, i - 1);
        if k < i { StringsKept(b, i, e, k); } else { StringNext(e, n, i); }
      }
    }
  }

  lemma OneString()
    ensures var b := Bands([], [], [], [], []);
      Shaped(b, 1) && Fronted(b, 1) && String(b, 1, 0) == []
  {
    var b := Bands([], [], [], [], []);
    assert Shaped(b, 1);
    forall i: nat
      ensures FrontOk(b, 1, i)
    {
    }
  }
}
