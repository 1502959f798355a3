// What the letters of a layout stand for (JSR 200, section 5.5.2 of the network transfer format), as tables of
// their own: the layouts of a single field or reference compile to the row and the band the tables name.
module LayoutLetters {
  import opened Common
  import opened LayoutModel
  import opened LayoutParser
  import opened LayoutCompile
  import opened LayoutSyntax
  import opened LayoutRoundTrip
  import opened LayoutInverse

  const WIDTHS: map<char, nat> := map['B' := 1, 'H' := 2, 'I' := 4, 'V' := 0]

  /** How the numbers behind a prefix are to be read: as code positions or not, and with a sign or not. */
  datatype Reading = Reading(bciKind: BciKind, signed: bool, narrow: CodingKind, wide: CodingKind)

  const NUMBERS: map<string, Reading> := map[
    "" := Reading(NoBci, false, Byte1, Unsigned5),
    "F" := Reading(NoBci, false, Byte1, Unsigned5),
    "S" := Reading(NoBci, true, Signed5, Signed5),
    "P" := Reading(BciIndex, false, Bci5, Bci5),
    "PO" := Reading(BciPreviousOffset, false, Branch5, Branch5),
    "O" := Reading(BciOffset, false, Branch5, Branch5),
    "OS" := Reading(BciOffset, true, Branch5, Branch5)]

  const REFERENCES: map<string, ReferenceKind> := map[
    "KI" := IntegerRef, "KJ" := LongRef, "KF" := FloatRef, "KD" := DoubleRef, "KS" := StringRef, "KQ" := FieldSpecificRef,
    "KL" := LoadableRef, "KM" := MethodHandleRef, "KT" := MethodTypeRef,
    "RC" := ClassRef, "RS" := SignatureRef, "RD" := DescriptorRef, "RF" := FieldRef, "RM" := MethodRef,
    "RI" := InterfaceMethodRef, "RU" := Utf8Ref, "RQ" := AnyRef, "RN" := AnyMemberRef, "RB" := BootstrapMethodRef,
    "RY" := InvokeDynamicRef]

  lemma Tables(n: Node)
    requires (n.IntegralNode? || n.ReferenceNode?) && ValidNode(n, false)
    ensures var items := [NodeItem(n)];
      && PrintItems(items) == PrintNode(n) && ValidItems(items) && CallsLand(items, 0, CountCallables(items)) && CallableLeads(items)
      && RowsLayout(items) == [Element(Sequence, firstChild := 1), HeadRow(n, Base(1, NO_INDEX, 0, 0), NO_INDEX)]
      && BandsItems(items) == BandsNode(n) && CountCallables(items) == 0
  {
    var items := [NodeItem(n)];
    assert items[1..] == [];
    assert [n][1..] == [];
    assert PrintNode(n) + "" == PrintNode(n);
    assert BandsSeq([n]) == BandsNode(n) + BandsSeq([]);
    assert RowsItems([], AfterItem(Base(1, NO_INDEX, 0, 0), items[0]), 0) == [];
    assert CallsLand([], 0, 0);
  }

  lemma Compiled(n: Node)
    requires (n.IntegralNode? || n.ReferenceNode?) && ValidNode(n, false) && |PrintNode(n)| <= 4
    ensures CompileText(PrintNode(n)).Some?
    ensures var L := CompileText(PrintNode(n)).value;
      L.elements == SettledAll([Element(Sequence, firstChild := 1), HeadRow(n, Base(1, NO_INDEX, 0, 0), NO_INDEX)])
      && L.bands == BandsNode(n) && |L.callables| == 0
  {
    hide RowsLayout; hide BandsItems; hide EntriesItems; hide CallsLand; hide ValidItems; hide CompileText; hide PrintItems;
    hide CountCallables; hide CallableLeads; hide BandsNode; hide HeadRow; hide PrintNode;
    Tables(n);
    PrintedCompiles([NodeItem(n)]);
  }

  /** A number of the given prefix and width is one row and one band, as the tables say. */
  lemma NumbersMean(prefix: string, width: char)
    requires prefix in NUMBERS && width in WIDTHS
    ensures CompileText(prefix + [width]).Some?
    ensures var L := CompileText(prefix + [width]).value; var r := NUMBERS[prefix];
      && L.elements == [Element(Sequence, firstChild := 1),
                        Element(Integral, bciKind := r.bciKind, bandIndex := 0, outputSize := WIDTHS[width], signed := r.signed)]
      && L.bands == [Band(if width == 'B' then r.narrow else r.wide, NoReference, WIDTHS[width], false)]
  {
    hide CompileText;
    var mark := match prefix
      case "" => PlainMark
      case "F" => FlagMark
      case "S" => SignedMark
      case "P" => IndexMark
      case "PO" => PreviousMark
      case "O" => OffsetMark
      case _ => SignedOffsetMark;
    var n := IntegralNode(mark, width);
    assert PrintNode(n) == prefix + [width];
    Compiled(n);
  }

  /** So is a reference, with N behind its name when it may be null. */
  lemma ReferencesMean(name: string, nullable: bool, width: char)
    requires name in REFERENCES && width in WIDTHS
    ensures CompileText(name + (if nullable then "N" else "") + [width]).Some?
    ensures var L := CompileText(name + (if nullable then "N" else "") + [width]).value;
      && L.elements == [Element(Sequence, firstChild := 1),
                        Element(Reference, reference := REFERENCES[name], bandIndex := 0, outputSize := WIDTHS[width],
                                nullable := nullable)]
      && L.bands == [Band(Unsigned5, REFERENCES[name], WIDTHS[width], nullable)]
  {
    hide CompileText;
    NamesAre(name);
    var n := ReferenceNode(name[0], name[1], nullable, width);
    assert name == [name[0], name[1]];
    assert PrintNode(n) == name + (if nullable then "N" else "") + [width];
    Compiled(n);
  }

  lemma NamesAre(name: string)
    requires name in REFERENCES
    ensures |name| == 2 && (name[0] == 'K' || name[0] == 'R') && ReferenceOf(name[0], name[1]) == REFERENCES[name] != NoReference
  {
  }
}
