// Where decoded band values come from: the band decoder itself is not part of this model.
module BandSupply {
  import opened Common
  import opened LayoutModel

  function Flatten(deliveries: seq<(CodingKind, seq<int>)>): seq<int> {
    if |deliveries| == 0 then [] else Flatten(deliveries[..|deliveries| - 1]) + deliveries[|deliveries| - 1].1
  }

  /** Stands for the band decoder: hands out the next `count` integers of an arbitrary supply. */
  class BandSource {
    const supply: seq<Int32>
    var position: nat
    /** The non-empty reads so far, each with the coding it asked for. */
    ghost var delivered: seq<(CodingKind, seq<int>)>

    ghost predicate Valid()
      reads this
    {
      position <= |supply| && Flatten(delivered) == supply[..position]
    }

    method Take(coding: CodingKind, count: nat) returns (ok: bool, values: seq<int>)
      requires Valid()
      modifies this
      ensures Valid()
      ensures ok <==> old(position) + count <= |supply|
      ensures ok ==>
                && values == supply[old(position)..old(position) + count] && position == old(position) + count
                && delivered == old(delivered) + (if values == [] then [] else [(coding, values)])
      ensures !ok ==> position == old(position)
    {
      if count > |supply| - position {
        return false, [];
      }
      values := supply[position..position + count];
      if values != [] {
        assert (delivered + [(coding, values)])[..|delivered|] == delivered;
        delivered := delivered + [(coding, values)];
      }
      assert supply[..position] + values == supply[..position + count];
      position := position + count;
      ok := true;
    }
  }
}
