// Reading an attribute as the user of a class file does: down the tree of the layout, every number in a
// field of its own size, every pool index and code position from the next relocation.
module LayoutReader {
  import opened Common
  import opened LayoutModel
  import opened LayoutMachine

  /** The bytes of one attribute and its relocations, which count from `base` bytes in front of it. */
  datatype Payload = Payload(bytes: seq<byte>, relocations: seq<Relocation>, base: nat)

  /** What is found at one row of the layout. */
  datatype Item =
    | Field(row: nat, value: int)
    | Index(row: nat, value: int, reference: ReferenceKind, bciKind: BciKind, nullable: bool, signed: bool)

  /** How far a reader came. */
  datatype Reading = Reading(items: seq<Item>, at: nat, resolved: nat)

  /** Rows whose bytes stay zero until a relocation is resolved. */
  predicate LeftOpen(el: Element) {
    el.kind == Reference || el.bciKind != NoBci
  }

  /** The number in a field, in two's complement when it is signed. */
  function FieldValue(bytes: seq<byte>, signed: bool): int {
    var u := FromBigEndian(bytes);
    if signed && 2 * u >= Pow2(8 * |bytes|) then u - Pow2(8 * |bytes|) else u
  }

  /** One item of row e. */
  function ReadItem(e: nat, el: Element, p: Payload, r: Reading): (next: Option<Reading>)
    ensures next.Some? ==> |next.value.items| > 0
  {
    var end := r.at + el.outputSize;
    if end > |p.bytes| then None
    else if !LeftOpen(el) then
      Some(Reading(r.items + [Field(e, FieldValue(p.bytes[r.at..end], el.signed))], end, r.resolved))
    else if r.resolved >= |p.relocations| then None
    else
      var x := p.relocations[r.resolved];
      if x.offset != p.base + r.at || x.size != el.outputSize then None
      else Some(Reading(r.items + [Index(e, x.value, x.reference, x.bciKind, x.nullable, x.signed)], end, r.resolved + 1))
  }

  /** Row c is a case that lists v. */
  ghost predicate Covers(L: Layout, c: nat, v: int)
    requires c < |L.elements|
  {
    exists k: nat :: k < L.elements[c].selectorCount && Lists(L, c, k, v)
  }

  /** Range k of case row c contains v. */
  predicate Lists(L: Layout, c: nat, k: nat, v: int)
    requires c < |L.elements|
  {
    var i := L.elements[c].selectorOffset + k;
    i < |L.selectors| && L.selectors[i].first <= v <= L.selectors[i].last
  }

  /** The first case from row c on that lists v. */
  ghost function Listed(L: Layout, c: nat, v: int): (r: nat)
    requires Indexed(L) && Within(c, |L.elements|)
    ensures Within(r, |L.elements|)
    decreases if c == NO_INDEX then 0 else |L.elements| - c
  {
    if c == NO_INDEX then NO_INDEX else
    assert RowIndexed(L, c);
    if Covers(L, c, v) then c else Listed(L, L.elements[c].nextSibling, v)
  }

  /** The first case from row c on that lists nothing. */
  function Unlisted(L: Layout, c: nat): (r: nat)
    requires Indexed(L) && Within(c, |L.elements|)
    ensures Within(r, |L.elements|)
    decreases if c == NO_INDEX then 0 else |L.elements| - c
  {
    if c == NO_INDEX then NO_INDEX else
    assert RowIndexed(L, c);
    if L.elements[c].selectorCount == 0 then c else Unlisted(L, L.elements[c].nextSibling)
  }

  /** The case of the union at row e that tag v stands for. */
  ghost function Chosen(L: Layout, e: nat, v: int): (r: nat)
    requires Indexed(L) && e < |L.elements|
    ensures Within(r, |L.elements|)
  {
    assert RowIndexed(L, e);
    var c := Listed(L, L.elements[e].firstChild, v);
    if c != NO_INDEX then c else Unlisted(L, L.elements[e].firstChild)
  }

  /** Row `row` and the siblings behind it; `depth` bounds the nesting. */
  ghost function ReadRows(L: Layout, p: Payload, row: nat, r: Reading, depth: nat): Option<Reading>
    requires Indexed(L) && Within(row, |L.elements|)
    decreases depth, 0, 0
  {
    if row == NO_INDEX then Some(r)
    else if depth == 0 then None
    else
      assert RowIndexed(L, row);
      match ReadRow(L, p, row, r, depth - 1)
      case None => None
      case Some(next) => ReadRows(L, p, L.elements[row].nextSibling, next, depth - 1)
  }

  /** Row e with everything below it. */
  ghost function ReadRow(L: Layout, p: Payload, e: nat, r: Reading, depth: nat): Option<Reading>
    requires Indexed(L) && e < |L.elements|
    decreases depth, 2, 0
  {
    assert RowIndexed(L, e);
    var el := L.elements[e];
    match el.kind
    case Call =>
      var body := L.callables[el.targetCallable].elementIndex;
      assert RowIndexed(L, body);
      ReadRows(L, p, L.elements[body].firstChild, r, depth)
    case Integral => ReadItem(e, el, p, r)
    case Reference => ReadItem(e, el, p, r)
    case Replication =>
      (match ReadItem(e, el, p, r)
       case None => None
       case Some(next) =>
         var count := next.items[|next.items| - 1].value;
         if count < 0 then None else ReadTimes(L, p, el.firstChild, count, next, depth))
    case Union =>
      (match ReadItem(e, el, p, r)
       case None => None
       case Some(next) =>
         var c := Chosen(L, e, next.items[|next.items| - 1].value);
         if c == NO_INDEX then None else
         assert RowIndexed(L, c);
         ReadRows(L, p, L.elements[c].firstChild, next, depth))
    case _ => Some(r)
  }

  /** The rows from `body` on, `times` times over. */
  ghost function ReadTimes(L: Layout, p: Payload, body: nat, times: nat, r: Reading, depth: nat): Option<Reading>
    requires Indexed(L) && Within(body, |L.elements|)
    decreases depth, 1, times
  {
    if body == NO_INDEX || times == 0 then Some(r)
    else match ReadRows(L, p, body, r, depth)
      case None => None
      case Some(next) => ReadTimes(L, p, body, times - 1, next, depth)
  }

  /** A whole attribute: the body of the first callable, or the rows of the layout when it has none. */
  ghost function ReadAttribute(L: Layout, p: Payload, depth: nat): Option<Reading>
    requires Indexed(L)
  {
    var top := if |L.callables| > 0 then L.callables[0].elementIndex else 0;
    assert RowIndexed(L, top);
    ReadRows(L, p, L.elements[top].firstChild, Reading([], 0, 0), depth)
  }

  /** The payload, to its last byte and relocation, reads as these items. */
  ghost predicate ReadsAs(L: Layout, p: Payload, items: seq<Item>, depth: nat)
    requires Indexed(L)
  {
    ReadAttribute(L, p, depth) == Some(Reading(items, |p.bytes|, |p.relocations|))
  }

  /** The items of a list of rows, each behind the other. */
  function ReadAlong(L: Layout, p: Payload, rows: seq<nat>, r: Reading): Option<Reading>
    requires forall k :: 0 <= k < |rows| ==> rows[k] < |L.elements|
  {
    if rows == [] then Some(r)
    else match ReadItem(rows[0], L.elements[rows[0]], p, r)
      case None => None
      case Some(next) => ReadAlong(L, p, rows[1..], next)
  }

  //
  // A greater depth changes no reading
  //

  lemma {:induction false} RowsDeeper(L: Layout, p: Payload, row: nat, r: Reading, depth: nat)
    requires Indexed(L) && Within(row, |L.elements|) && ReadRows(L, p, row, r, depth).Some?
    ensures ReadRows(L, p, row, r, depth + 1) == ReadRows(L, p, row, r, depth)
    decreases depth, 0, 0
  {
    if row != NO_INDEX {
      assert RowIndexed(L, row);
      RowDeeper(L, p, row, r, depth - 1);
      RowsDeeper(L, p, L.elements[row].nextSibling, ReadRow(L, p, row, r, depth - 1).value, depth - 1);
    }
  }

  lemma {:induction false} RowDeeper(L: Layout, p: Payload, e: nat, r: Reading, depth: nat)
    requires Indexed(L) && e < |L.elements| && ReadRow(L, p, e, r, depth).Some?
    ensures ReadRow(L, p, e, r, depth + 1) == ReadRow(L, p, e, r, depth)
    decreases depth, 2, 0
  {
    hide Chosen; hide ReadItem;
    assert RowIndexed(L, e);
    var el := L.elements[e];
    match el.kind
    case Call =>
      var body := L.callables[el.targetCallable].elementIndex;
      assert RowIndexed(L, body);
      RowsDeeper(L, p, L.elements[body].firstChild, r, depth);
    case Replication =>
      var next := ReadItem(e, el, p, r).value;
      TimesDeeper(L, p, el.firstChild, next.items[|next.items| - 1].value, next, depth);
    case Union =>
      var next := ReadItem(e, el, p, r).value;
      var c := Chosen(L, e, next.items[|next.items| - 1].value);
      assert RowIndexed(L, c);
      RowsDeeper(L, p, L.elements[c].firstChild, next, depth);
    case _ =>
  }

  lemma {:induction false} TimesDeeper(L: Layout, p: Payload, body: nat, times: nat, r: Reading, depth: nat)
    requires Indexed(L) && Within(body, |L.elements|) && ReadTimes(L, p, body, times, r, depth).Some?
    ensures ReadTimes(L, p, body, times, r, depth + 1) == ReadTimes(L, p, body, times, r, depth)
    decreases depth, 1, times
  {
    if body != NO_INDEX && times > 0 {
      RowsDeeper(L, p, body, r, depth);
      TimesDeeper(L, p, body, times - 1, ReadRows(L, p, body, r, depth).value, depth);
    }
  }
}
