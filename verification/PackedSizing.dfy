// The second pass of the assembler: where every instruction begins, how long every method is, and
// the map from instruction numbers to byte offsets.
module PackedSizing {
  import opened Common
  import opened PackedCode
  import opened PackedFacts

  lemma {:induction false} OffsetsGrow(P: Program, first: nat, i: nat, j: nat)
    requires i <= j && first + j <= |P.codes|
    ensures Offset(P, first, i) + (j - i) <= Offset(P, first, j)
    decreases j
  {
    hide CaseCount; hide Length;
    if i < j { OffsetsGrow(P, first, i, j - 1); }
  }

  lemma {:induction false} SwitchesGrow(codes: seq<byte>, a: nat, b: nat)
    requires a <= b <= |codes|
    ensures SwitchesBefore(codes, a) <= SwitchesBefore(codes, b)
    decreases b
  {
    if a < b { SwitchesGrow(codes, a, b - 1); }
  }

  /** A switch takes the case count its place among the switches says. */
  lemma NextCount(P: Program, g: nat)
    requires Delivered(P) && g < |P.codes|
    ensures var k := SwitchesBefore(P.codes, g);
      && SwitchesBefore(P.codes, g + 1) == k + One(IsSwitch(P.codes[g]))
      && (IsSwitch(P.codes[g]) ==> k < |P.caseCounts| && CaseCount(P, g) == P.caseCounts[k])
      && (!IsSwitch(P.codes[g]) ==> CaseCount(P, g) == 0)
      && CaseCount(P, g) < 0x8000_0000
  {
    hide Supported; hide Cut; hide CaseNeed; hide Need;
    SwitchesGrow(P.codes, g + 1, |P.codes|);
  }

  /** A method's instructions are laid out one behind the other; a switch takes the next case count. */
  method LayOutMethod(P: Program, m: Method, switchIndex: nat) returns (ok: bool, offsets: seq<nat>, length: nat, switchIndex': nat)
    requires Delivered(P) && MethodIn(P, m) && switchIndex == SwitchesBefore(P.codes, m.first)
    ensures ok <==> CodeLength(P, m) <= 0xffff_ffff
    ensures ok ==>
              && |offsets| == m.length && (forall i: nat :: i < m.length ==> offsets[i] == Offset(P, m.first, i))
              && length == CodeLength(P, m) && switchIndex' == SwitchesBefore(P.codes, m.first + m.length)
  {
    hide Length; hide SwitchesBefore; hide CaseCount; hide Delivered; hide Offset;
    offsets, length, switchIndex' := [], 0, switchIndex;
    assert Offset(P, m.first, 0) == 0 by { OffsetZero(P, m.first); }
    for i := 0 to m.length
      invariant |offsets| == i && forall j: nat :: j < i ==> offsets[j] == Offset(P, m.first, j)
      invariant length == Offset(P, m.first, i)
      invariant switchIndex' == SwitchesBefore(P.codes, m.first + i)
    {
      if length > 0xffff_ffff {
        OffsetsGrow(P, m.first, i, m.length);
        return false, offsets, length, switchIndex';
      }
      offsets := offsets + [length];
      var opcode := P.codes[m.first + i];
      var count := 0;
      NextCount(P, m.first + i);
      if opcode == 170 || opcode == 171 {
        count := P.caseCounts[switchIndex'];
        switchIndex' := switchIndex' + 1;
      }
      LengthFits(opcode, length, count);
      OffsetNext(P, m.first, i);
      length := length + Length(opcode, length, count);
    }
    ok := length <= 0xffff_ffff;
  }

  lemma OffsetZero(P: Program, first: nat)
    requires first <= |P.codes|
    ensures Offset(P, first, 0) == 0
  {
  }

  lemma OffsetNext(P: Program, first: nat, i: nat)
    requires first + i < |P.codes|
    ensures Offset(P, first, i + 1)
         == Offset(P, first, i) + Length(P.codes[first + i], Offset(P, first, i), CaseCount(P, first + i))
  {
    hide Length; hide CaseCount;
  }

  /** No instruction length leaves SIZE_T. */
  lemma LengthFits(op: byte, offset: nat, count: nat)
    requires offset <= 0xffff_ffff && count < 0x8000_0000
    ensures offset + Length(op, offset, count) <= SIZE_MAX
  {
  }

  /** Every instruction of every method is where it belongs. */
  ghost predicate LaidOut(P: Program, offsets: seq<nat>, codeOffsets: seq<nat>, codeLengths: seq<nat>, n: nat)
    requires Cut(P) && n <= |P.methods|
  {
    && |offsets| == FirstOf(P, n) && |codeOffsets| == n && |codeLengths| == n
    && (forall c: nat :: c < n ==> MethodLaidOut(P, offsets, codeOffsets, codeLengths, c))
  }

  ghost predicate MethodLaidOut(P: Program, offsets: seq<nat>, codeOffsets: seq<nat>, codeLengths: seq<nat>, c: nat)
    requires Cut(P) && c < |P.methods| && c < |codeOffsets| && c < |codeLengths|
  {
    assert MethodOk(P, c);
    var m := P.methods[c];
    && codeOffsets[c] == CodeOffset(P, c) <= 0xffff_ffff && codeLengths[c] == CodeLength(P, m) <= 0xffff_ffff
    && m.first + m.length <= |offsets|
    && (forall i: nat :: i < m.length ==> offsets[m.first + i] == Offset(P, m.first, i))
  }

  ghost predicate Sized(P: Program, c: nat)
    requires Cut(P) && c < |P.methods|
  {
    assert MethodOk(P, c);
    CodeLength(P, P.methods[c]) <= 0xffff_ffff && CodeOffset(P, c) <= 0xffff_ffff
  }

  method LayOut(P: Program) returns (ok: bool, offsets: seq<nat>, codeOffsets: seq<nat>, codeLengths: seq<nat>, total: nat)
    requires Delivered(P)
    ensures ok <==> forall c: nat :: c < |P.methods| ==> Sized(P, c)
    ensures ok ==> LaidOut(P, offsets, codeOffsets, codeLengths, |P.methods|) && total == CodeOffset(P, |P.methods|)
  {
    hide Offset; hide Supported; hide Need; hide CaseNeed; hide SwitchesBefore; hide MethodIn; hide Cut;
    offsets, codeOffsets, codeLengths, total := [], [], [], 0;
    var switchIndex := 0;
    NoSwitches(P);
    for c := 0 to |P.methods|
      invariant LaidOut(P, offsets, codeOffsets, codeLengths, c) && total == CodeOffset(P, c)
      invariant |offsets| <= |P.codes| && switchIndex == SwitchesBefore(P.codes, |offsets|)
      invariant forall d: nat :: d < c ==> Sized(P, d)
    {
      CutMethod(P, c);
      if total > 0xffff_ffff {
        assert !Sized(P, c);
        return false, offsets, codeOffsets, codeLengths, total;
      }
      var m := P.methods[c];
      var more, length;
      ok, more, length, switchIndex := LayOutMethod(P, m, switchIndex);
      if !ok {
        assert !Sized(P, c);
        return;
      }
      assert Sized(P, c);
      LaidOutMore(P, offsets, codeOffsets, codeLengths, c, more, length);
      offsets, codeOffsets, codeLengths := offsets + more, codeOffsets + [total], codeLengths + [length];
      total := total + length;
    }
    ok := true;
  }

  lemma NoSwitches(P: Program)
    requires Cut(P)
    ensures SwitchesBefore(P.codes, 0) == 0 && LaidOut(P, [], [], [], 0)
  {
  }

  lemma LaidOutMore(P: Program, offsets: seq<nat>, codeOffsets: seq<nat>, codeLengths: seq<nat>, c: nat, more: seq<nat>, length: nat)
    requires Cut(P) && c < |P.methods| && LaidOut(P, offsets, codeOffsets, codeLengths, c) && MethodOk(P, c) && Sized(P, c)
    requires |more| == P.methods[c].length && length == CodeLength(P, P.methods[c])
    requires forall i: nat :: i < P.methods[c].length ==> more[i] == Offset(P, P.methods[c].first, i)
    ensures LaidOut(P, offsets + more, codeOffsets + [CodeOffset(P, c)], codeLengths + [length], c + 1)
    ensures |offsets + more| == P.methods[c].first + P.methods[c].length <= |P.codes|
  {
    hide Offset; hide Cut;
    var all, starts, lengths := offsets + more, codeOffsets + [CodeOffset(P, c)], codeLengths + [length];
    forall d: nat | d < c + 1
      ensures MethodLaidOut(P, all, starts, lengths, d)
    {
      CutMethod(P, d);
      if d < c {
        assert MethodLaidOut(P, offsets, codeOffsets, codeLengths, d);
        assert P.methods[d].first + P.methods[d].length <= |offsets|;
      } else {
        var m := P.methods[c];
        forall i: nat | i < m.length
          ensures all[m.first + i] == Offset(P, m.first, i)
        {
          assert all[m.first + i] == more[i];
        }
      }
    }
  }

  /** The instruction map of method c lists the offsets of its instructions, then the length of its code. */
  ghost predicate Mapped(P: Program, starts: seq<nat>, counts: seq<nat>, map': seq<nat>, c: nat)
    requires Cut(P) && c < |P.methods| && c < |starts| && c < |counts|
  {
    assert MethodOk(P, c);
    var m := P.methods[c];
    && starts[c] == m.first + c && counts[c] == m.length && starts[c] + m.length < |map'|
    && (forall i: nat :: i <= m.length ==> map'[starts[c] + i] == Offset(P, m.first, i))
  }

  method BuildMap(P: Program, offsets: seq<nat>, codeLengths: seq<nat>, ghost codeOffsets: seq<nat>)
    returns (ok: bool, starts: seq<nat>, counts: seq<nat>, map': seq<nat>)
    requires Cut(P) && LaidOut(P, offsets, codeOffsets, codeLengths, |P.methods|)
    ensures ok ==>
              && |starts| == |counts| == |P.methods| && |map'| == |P.codes| + |P.methods|
              && forall c: nat :: c < |P.methods| ==> Mapped(P, starts, counts, map', c)
    ensures ok <==> forall c: nat :: c < |P.methods| ==> P.methods[c].first + c <= 0xffff_ffff && P.methods[c].length <= 0xffff_ffff
  {
    hide Offset; hide Cut;
    starts, counts, map' := [], [], [];
    CutTotal(P);
    for c := 0 to |P.methods|
      invariant |starts| == |counts| == c && |map'| == FirstOf(P, c) + c
      invariant forall d: nat :: d < c ==> Mapped(P, starts, counts, map', d)
      invariant forall d: nat :: d < c ==> P.methods[d].first + d <= 0xffff_ffff && P.methods[d].length <= 0xffff_ffff
    {
      CutMethod(P, c);
      assert MethodLaidOut(P, offsets, codeOffsets, codeLengths, c);
      var m := P.methods[c];
      if |map'| > 0xffff_ffff || m.length > 0xffff_ffff {
        return false, starts, counts, map';
      }
      var starts', counts' := starts + [|map'|], counts + [m.length];
      var longer := map' + offsets[m.first..m.first + m.length] + [codeLengths[c]];
      MapMore(P, starts, counts, map', c, offsets, codeLengths, codeOffsets, starts', counts', longer);
      starts, counts, map' := starts', counts', longer;
    }
    ok := true;
  }

  lemma CutTotal(P: Program)
    requires Cut(P)
    ensures |P.codes| == FirstOf(P, |P.methods|)
  {
  }

  lemma MapMore(P: Program, starts: seq<nat>, counts: seq<nat>, map': seq<nat>, c: nat, offsets: seq<nat>, codeLengths: seq<nat>,
                codeOffsets: seq<nat>, starts': seq<nat>, counts': seq<nat>, longer: seq<nat>)
    requires Cut(P) && c < |P.methods| && LaidOut(P, offsets, codeOffsets, codeLengths, |P.methods|) && MethodOk(P, c)
    requires |starts| == |counts| == c && |map'| == FirstOf(P, c) + c
    requires forall d: nat :: d < c ==> Mapped(P, starts, counts, map', d)
    requires starts' == starts + [|map'|] && counts' == counts + [P.methods[c].length]
    requires |offsets| == FirstOf(P, |P.methods|) == |P.codes|
    requires longer == map' + offsets[P.methods[c].first..P.methods[c].first + P.methods[c].length] + [codeLengths[c]]
    ensures forall d: nat :: d < c + 1 ==> Mapped(P, starts', counts', longer, d)
  {
    hide Offset; hide Cut;
    var m := P.methods[c];
    assert MethodLaidOut(P, offsets, codeOffsets, codeLengths, c);
    forall d: nat | d < c + 1
      ensures Mapped(P, starts', counts', longer, d)
    {
      CutMethod(P, d);
      if d < c {
        assert Mapped(P, starts, counts, map', d);
      } else {
        forall i: nat | i <= m.length
          ensures longer[|map'| + i] == Offset(P, m.first, i)
        {
          if i < m.length { assert longer[|map'| + i] == offsets[m.first + i]; }
        }
      }
    }
  }
}
