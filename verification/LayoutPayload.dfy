// What an occurrence writes: how much, and that its relocations lie over zeroed bytes in order.
module LayoutPayload {
  import opened Common
  import opened LayoutModel
  import opened LayoutMachine

  /** Relocations are ordered, do not overlap, and each covers zeroed bytes inside the payload. */
  ghost predicate RelocationsOk(bytes: seq<byte>, relocations: seq<Relocation>) {
    && (forall k :: 0 <= k < |relocations| ==> RelocationOk(bytes, relocations[k]))
    && (forall j, k :: 0 <= j < k < |relocations| ==>
          relocations[j].offset + relocations[j].size <= relocations[k].offset)
  }

  ghost predicate RelocationOk(bytes: seq<byte>, r: Relocation) {
    r.offset + r.size <= |bytes| && forall i :: r.offset <= i < r.offset + r.size ==> bytes[i] == 0
  }

  lemma WriteKeeps(el: Element, v: int, m: Machine)
    requires RelocationsOk(m.bytes, m.relocations)
    ensures RelocationsOk(Write(el, v, m).bytes, Write(el, v, m).relocations)
  {
    var n := Write(el, v, m);
    forall k | 0 <= k < |m.relocations|
      ensures RelocationOk(n.bytes, m.relocations[k])
    {
      assert RelocationOk(m.bytes, m.relocations[k]);
    }
    forall j, k | 0 <= j < k < |n.relocations|
      ensures n.relocations[j].offset + n.relocations[j].size <= n.relocations[k].offset
    {
      assert RelocationOk(m.bytes, m.relocations[j]);
    }
  }

  /**
   * One turn appends to the payload: nothing written is changed, at most four bytes and one
   * relocation are added, and the relocations stay sound.
   */
  lemma StepAppends(L: Layout, s: Shape, values: seq<seq<int>>, m: Machine)
    requires WellFormed(L, s) && MachineOk(L, m) && m.frames != [] && |values| == |L.bands|
    requires Step(L, values, m).Running?
    ensures var n := Step(L, values, m).m;
      && m.bytes <= n.bytes && |n.bytes| <= |m.bytes| + 4
      && m.relocations <= n.relocations && |n.relocations| <= |m.relocations| + 1
      && (RelocationsOk(m.bytes, m.relocations) ==> RelocationsOk(n.bytes, n.relocations))
  {
    hide RelocationsOk; hide Select;
    var top := m.frames[|m.frames| - 1];
    assert FrameOk(L, top);
    if top.next != NO_INDEX {
      assert RowOk(L, s, top.next);
      var el := L.elements[top.next];
      if HasBand(el) && RelocationsOk(m.bytes, m.relocations) {
        WriteKeeps(el, values[el.bandIndex][m.cursor[el.bandIndex]], m);
      }
    }
  }

  /** A finished run extends what was there and stays within four bytes per turn. */
  lemma {:induction false} RunAppends(L: Layout, s: Shape, values: seq<seq<int>>, m: Machine, fuel: nat)
    requires WellFormed(L, s) && MachineOk(L, m) && |values| == |L.bands|
    requires Run(L, values, m, fuel).Done?
    ensures var n := Run(L, values, m, fuel).m;
      && m.bytes <= n.bytes && |n.bytes| <= |m.bytes| + 4 * fuel
      && m.relocations <= n.relocations && |n.relocations| <= |m.relocations| + fuel
      && (RelocationsOk(m.bytes, m.relocations) ==> RelocationsOk(n.bytes, n.relocations))
    decreases fuel
  {
    hide Step; hide RelocationsOk;
    if m.frames != [] {
      StepAppends(L, s, values, m);
      RunAppends(L, s, values, Step(L, values, m).m, fuel - 1);
    }
  }

  /** Every occurrence's relocations are in its slice, ordered, disjoint and over zeroed bytes. */
  lemma PayloadSound(L: Layout, s: Shape, values: seq<seq<int>>, n: nat, limit: nat)
    requires WellFormed(L, s) && |values| == |L.bands| && n > 0 && Occurrences(L, values, n, limit).Done?
    ensures var m := Occurrences(L, values, n, limit).m;
      && RelocationsOk(m.bytes, m.relocations)
      && |m.bytes| <= 4 * limit && |m.relocations| <= limit
  {
    RunAppends(L, s, values, Start(L, Occurrences(L, values, n - 1, limit).m), limit);
  }
}
