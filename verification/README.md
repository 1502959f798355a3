# Codec proofs

A Dafny model of the kernel-side codecs under `src/wknetlib/codec`, with proofs of what they are for:
the two readers of Pack200 attribute bands agree and the attributes they emit read back as the values sent,
the assembled bytecode disassembles to the packed program with every jump where its label points, deflate
streams are cut at their ends, LZW text comes back, and EXI documents are decoded to the events of their
trees with the values their writer sent, in the writer's order.

Code that works step by step is imperative here as well: methods with loops over arrays, cursors, tables
and stacks. Each method is proved against a specification on values (the parser as a function of the text,
the executor as a machine, the Huffman code as a list of entries, the value partition as a history), and the
theorems are about those specifications. What each specification means is said once more by a definition that
does not use it: a reader of attribute payloads, a disassembler, the deflate format on bits, LZW text as a list of
phrases, an encoder of EXI documents, the rules of a replay. Writers, printers, encoders and readers that the
repository does not contain exist for that purpose.

## Files

| area | files |
|---|---|
| Pack200 attribute layouts | `LayoutModel`, `LayoutNumbers`, `LayoutParser`, `LayoutParserSound`, `LayoutCompile`, `LayoutCompiler`, `LayoutSyntax`, `LayoutReading`, `LayoutSimulation`, `LayoutRoundTrip`, `LayoutInverse`, `LayoutLetters` (text to tables and back); `LayoutColumns`, `LayoutUnique`, `LayoutDecode` (column-wise reading); `LayoutMachine`, `LayoutFlow`, `LayoutTheorem`, `LayoutMeasured`, `LayoutPayload`, `LayoutBands`, `LayoutStore` (row-wise execution, measuring, emitting, storing); `LayoutReader`, `LayoutReadBack`, `LayoutTruncated` (attributes read back); `LayoutDrift`, `LayoutDeclared`, `LayoutUnnoticed` (declared backward calls) |
| Pack200 bytecode | `PackedCode` (specification), `PackedReader`, `PackedSizing`, `PackedEmitter`, `PackedAssembler` (the passes), `PackedFacts`, `JavaCode`, `PackedListing`, `PackedDisassembly` (what a virtual machine reads) |
| Pack200 strings and integers | `BandCoding`, `BandSupply`, `Utf8`, `Utf8Bands`, `FrontCoding` |
| Deflate | `DeflateBits`, `Huffman`, `DeflateScan`, `DeflateSplit` (the scanner); `DeflateFormat`, `DeflateWords`, `DeflateGrammar`, `DeflateHeader`, `DeflateStream` (the format on bits) |
| LZW | `LzwModel`, `LzwRoundTrip`, `LzwDecoder`, `LzwText` (the text as phrases) |
| EXI | `ExiBits`, `Decimal`, `ExiValues`, `ExiStrings`, `ExiPartitions` (a writer of values), `ExiGrammars`, `ExiEvents`, `ExiNamespaces`, `ExiChannels`, `ExiReordered`, `ExiReplay` (the rules of a replay); `ExiDocument` (an encoder), `ExiSpoken`, `ExiTurns`, `ExiDocumentBack`, `ExiRoundTrip`, `ExiEncoded` (documents decoded) |
| shared | `Common`, `Arithmetic`, `Octets` |

## Findings

Properties the documents promise that the code does not have, each with the exact condition under which it
does, proved for all inputs.

- RFC 1951, section 3.2.7, lets a dynamic block without matches declare no distance code. `EmptyDistancesRefused`
  shows that the code refuses such a vector although its Kraft sum is fine; `HeaderAccepted` shows that a
  header in order otherwise is accepted exactly when some distance has a code.
- The EXI unsigned reader consumes five octets but keeps 32 bits: `UnsignedInverts` shows that a value below
  2 to the 35 comes back exactly when it is below 2 to the 32.
- A signed delta coding with fewer than 2 to the 32 codes is normalised to non-negative values.
  `RecoverableExactly` gives, for every coding the reader admits, the sequences of values that can be sent at
  all: those whose every value is `Representable`. `NamedCodings` works this out for the named ones.
- The layout flag mark `F` is read and dropped: `CompileInverts` gives the tree back but for its `F` marks.
- Two selectors of one case may overlap, only cases are compared with each other; printed text nevertheless
  compiles exactly under the conditions of `PrintedCompiles`.
- The declared number of backward calls of a callable is checked only through the bands it lengthens, so a wrong
  number can pass. `AnythingGoes` compiles the layout `[B][(0)]` and shows that with one occurrence and the value 7
  any number may be declared for the second callable, which is never entered. `AcceptedExactly` says, for all bands
  that measuring uses up, which numbers pass: the calls made plus a drift that every callable hands on along its
  direct forward calls and no callable that reads a value takes part in. `ForcedExactly` says that the true numbers are
  the only ones exactly when nothing can drift. On the layout alone: without occurrences, wrong numbers are refused
  exactly when direct forward calls lead from every callable entered backward to a value (`NoOccurrenceExactly`); with
  any number of occurrences that is the exact condition too, wherever value-less callables do not share a target and
  call none that is entered backward (`SoleCallersExactly`); and beyond these layouts it is enough that the callables
  can be ranked so that each settles (`DeclaredAreMade`).
- A number, count or tag of an attribute is cut to the bytes of its field without a check: `HighBytesLost` compiles the
  layout `H`, lets one occurrence take 65536 and shows that its attribute reads as 0. `OccurrenceExactly` says when the
  values themselves come back to whoever walks the layout over the bytes: if and only if each fits its field.
- The stacks of the EXI event loop hold one entry more than the input has bytes, the document's own among them, although
  an element can be written in two bits. `DeepRefused` encodes seven elements inside each other in 44 bits and shows that
  the document is refused, like every deeper one of its kind. `EncodedDecodes` gives the condition for every document and
  fragment: it is decoded if and only if the stacks have room for its nesting.
- A value partition capacity of zero makes the table's initialisation fail (`ValueTable.Initialize`).

## Model

| member | source | states |
|---|---|---|
| LayoutCompiler.AttributeLayout.Compile | src/wknetlib/codec/Pack200AttributeLayout.cpp:164-633 | the in-place compiler accepts a text exactly when the parser on values does, leaves its tables, and they are a well-formed layout; every refusal leaves empty tables |
| LayoutCompiler.AttributeLayout.Overlaps | src/wknetlib/codec/Pack200AttributeLayout.cpp:277-291 | walking the finished cases finds an overlap exactly when one exists among them, along links that only run forward |
| LayoutCompiler.ParseSignedNumber | src/wknetlib/codec/Pack200AttributeLayout.cpp:72-112 | accepts exactly the decimal numbers of 32 bits, with their value and end |
| LayoutNumbers.NumberExactly | src/wknetlib/codec/Pack200AttributeLayout.cpp:72-112 | a number is read from p to q with value v if and only if a minus or none and all digits that follow stand there, spelling v in 32 bits |
| LayoutParserSound.StepKeeps | src/wknetlib/codec/Pack200AttributeLayout.cpp:224-603 | every turn keeps the parser invariant: preorder tree, disjoint cases, tables no larger than the text read, so no capacity check can fail |
| LayoutCompile.CompiledWellFormed | src/wknetlib/codec/Pack200AttributeLayout.cpp:164-633 | every accepted text yields a well-formed layout: disjoint cases, default last, forward calls to later callables |
| LayoutRoundTrip.PrintedParses | src/wknetlib/codec/Pack200AttributeLayout.cpp:220-610 | the printed text of every valid tree is parsed to its end into exactly the tables of the tree |
| LayoutInverse.PrintedCompiles | src/wknetlib/codec/Pack200AttributeLayout.cpp:164-633 | a printed tree compiles if and only if every call lands on a callable and a layout with callables starts with one |
| LayoutInverse.CompileInverts | src/wknetlib/codec/Pack200AttributeLayout.cpp:164-633 | following the links of the compiled table gives back the printed tree, but for F marks |
| LayoutBands.AttributeValueBands.Decode | src/wknetlib/codec/Pack200AttributeLayout.cpp:675-852 | succeeds exactly when the call counts match and the supply goes on with balanced columns within SIZE_T; reads these, ends just behind them, each band in its own coding |
| LayoutUnique.ColumnsUnique | src/wknetlib/codec/Pack200AttributeLayout.cpp:717-849 | the same integers spell at most one set of columns |
| LayoutFlow.StepConserves | src/wknetlib/codec/Pack200AttributeLayout.cpp:881-1021 | each turn keeps visits made plus visits pending equal to the flow into every row; it gets stuck only on an empty band or a negative repeat count |
| LayoutTheorem.RowsMatchColumns | src/wknetlib/codec/Pack200AttributeLayout.cpp:881-1055 | without backward calls, balanced columns run to the end or to a limit: no band runs short, every band is used up, every row is visited as often as the columns counted |
| LayoutMeasured.MeasuredBalances | src/wknetlib/codec/Pack200AttributeLayout.cpp:1036-1055 | for any layout, bands used up exactly are balanced by the visits made, backward calls or not |
| LayoutMeasured.MeasuresBalanced | src/wknetlib/codec/Pack200AttributeLayout.cpp:1036-1055 | without backward calls and short of the limits, measuring accepts exactly the balanced bands |
| LayoutDrift.AcceptedExactly | src/wknetlib/codec/Pack200AttributeLayout.cpp:812-849 | for bands that measuring uses up, the columns are balanced for exactly the declared counts that the calls made and a drift explain |
| LayoutDeclared.ForcedExactly | src/wknetlib/codec/Pack200AttributeLayout.cpp:812-849 | the true counts are the only ones accepted if and only if nothing can drift in the run |
| LayoutDeclared.AnyCountPasses | src/wknetlib/codec/Pack200AttributeLayout.cpp:831-848 | without occurrences any count of an unwatched callable passes decoding and measuring |
| LayoutDeclared.NoOccurrenceExactly | src/wknetlib/codec/Pack200AttributeLayout.cpp:831-848 | without occurrences wrong counts are refused if and only if every callable entered backward is watched |
| LayoutDeclared.SoleCallersExactly | src/wknetlib/codec/Pack200AttributeLayout.cpp:812-849 | in layouts with sole callers, no run accepts a wrong count if and only if every callable entered backward is watched |
| LayoutDeclared.DeclaredAreMade | src/wknetlib/codec/Pack200AttributeLayout.cpp:812-849 | when the callables can be ranked so that each settles, every accepted count is the number of backward calls made |
| LayoutUnnoticed.AnythingGoes | src/wknetlib/codec/Pack200AttributeLayout.cpp:831-848 | the layout [B][(0)] with one occurrence: any declared count is decoded, measured and used up although no backward call is made |
| LayoutPayload.PayloadSound | src/wknetlib/codec/Pack200AttributeLayout.cpp:881-1021 | the relocations of an occurrence lie in its payload, in order, apart, over zero bytes |
| LayoutLetters.NumbersMean | src/wknetlib/codec/Pack200AttributeLayout.cpp:529-603 | a layout of one number compiles to the row and band a table of its own names for its prefix and width: size, code position kind, sign, coding |
| LayoutLetters.ReferencesMean | src/wknetlib/codec/Pack200AttributeLayout.cpp:141-172 | so does a layout of one reference, for each of the twenty kinds, with and without N |
| LayoutReadBack.OccurrenceReads | src/wknetlib/codec/Pack200AttributeLayout.cpp:881-1021 | read along the rows it visits, an occurrence is, to its last byte and relocation, the values it takes: numbers modulo 256 to the n in fields of n bytes, relocations with the value and the kinds, sign and null mark of their row; and so it is for a reader that walks the tree by the counts and tags in the bytes, when these fit |
| LayoutReadBack.OccurrenceExactly | src/wknetlib/codec/Pack200AttributeLayout.cpp:899-918 | that reader finds the very values taken if and only if each fits its field |
| LayoutReadBack.AllTaken | src/wknetlib/codec/Pack200AttributeLayout.cpp:891-898 | the occurrences together take every band from its front on, each value once and in order |
| LayoutReadBack.SlicesRead | src/wknetlib/codec/Pack200AttributeLayout.cpp:1058-1112 | in the buffers the occurrences are emitted to, every slice with its relocations reads back in the same way |
| LayoutTruncated.HighBytesLost | src/wknetlib/codec/Pack200AttributeLayout.cpp:903-918 | the layout H with the value 65536: the occurrence succeeds, uses its band up and reads as 0 |
| Octets.IntegerValue | src/wknetlib/codec/Pack200AttributeLayout.cpp:908-914 | n bytes, high byte first, hold a number modulo 256 to the n |
| LayoutBands.AttributeValueBands.Measure | src/wknetlib/codec/Pack200AttributeLayout.cpp:1025-1056 | succeeds exactly when all occurrences run and use every band up; then the recorded sizes are the true ones and the visits balance the bands |
| LayoutBands.AttributeValueBands.Emit | src/wknetlib/codec/Pack200AttributeLayout.cpp:1058-1112 | succeeds exactly when the sizes are those measured and the slices fit; fills every slice with its payload, which is what `SlicesRead` says it reads as, and touches nothing in front of them |
| LayoutStore.GrowBuffer | src/wknetlib/codec/Pack200AttributeLayout.cpp:1116-1145 | succeeds exactly when the doubled capacity can be allocated; it then has room for what is required and keeps what was used |
| LayoutStore.GrownTwice | src/wknetlib/codec/Pack200AttributeLayout.cpp:1123-1131 | growing in steps ends with the capacity that growing at once would give |
| LayoutStore.StoreOccurrences | src/wknetlib/codec/Pack200BandParser.cpp:424-451 | succeeds exactly when the occurrences run, use the bands up and the two buffers have room for all they write; the new slices tile the space behind the old contents, which stay |
| LayoutStore.DecodeAttribute | src/wknetlib/codec/Pack200BandParser.cpp:393-453 | decode, measure, reserve and emit of one definition succeed exactly when the call counts match, the supply goes on with columns, their occurrences run and use them up, and there is room; without backward calls the columns always suit, up to the limits |
| PackedReader.ScanMethods | src/wknetlib/codec/Pack200BandParser.cpp:2597-2764 | accepts exactly the readable opcode runs and splits them into consecutive methods that pack back to the input |
| PackedReader.WordsInOrder | src/wknetlib/codec/Pack200BandParser.cpp:2882-3045 | the integers of a program are its case counts, its case values and its eighteen operand bands in the order of a list that names them, each read in the coding named there |
| PackedSizing.LayOut | src/wknetlib/codec/Pack200BandParser.cpp:3055-3146 | succeeds exactly when all methods are sized within 32 bits, and records where each instruction and method begins |
| PackedSizing.BuildMap | src/wknetlib/codec/Pack200BandParser.cpp:3147-3173 | the instruction map holds, per method, its instruction offsets and its length |
| PackedEmitter.TablesAgree | src/wknetlib/codec/Pack200BandParser.cpp:2625-2765 | for every opcode the emitter takes from each band exactly what the scan counted |
| PackedFacts.InstructionLength | src/wknetlib/codec/Pack200BandParser.cpp:3066-3138 | the emitted bytes of every instruction are as many as the sizing pass planned |
| PackedFacts.CodeStands | src/wknetlib/codec/Pack200BandParser.cpp:3206-3594 | method c occupies exactly its planned length at its planned offset in the code of all methods |
| PackedFacts.RelocationsFillTable | src/wknetlib/codec/Pack200BandParser.cpp:3174-3204 | the relocations of all methods are as many as the fourteen index bands hold values |
| PackedEmitter.CodeEmitter.FinalCounts | src/wknetlib/codec/Pack200BandParser.cpp:3589-3606 | the final consistency check, with all its cursors and counts, cannot fail |
| PackedEmitter.CodeEmitter.EmitAll | src/wknetlib/codec/Pack200BandParser.cpp:3206-3609 | writes exactly the specified code and fills the relocation table, or returns the status of the first instruction that cannot be encoded |
| PackedDisassembly.MethodListed | src/wknetlib/codec/Pack200BandParser.cpp:3206-3587 | a disassembler with the virtual machine's opcodes finds, at the offset of every instruction, the instruction the packed opcode names, with its operands and constants |
| PackedAssembler.ProgramListed | src/wknetlib/codec/Pack200BandParser.cpp:3055-3609 | so it does for every method of an assembled program, each constant being the next value of the band it is taken from |
| PackedAssembler.ProgramEncodes | src/wknetlib/codec/Pack200BandParser.cpp:3206-3587 | emission refuses nothing but local numbers above a byte, labels out of reach and a table switch past the largest int |
| PackedAssembler.RelocationsFit | src/wknetlib/codec/Pack200BandParser.cpp:3391-3553 | every open index lies inside its own instruction of its own method, over zero bytes |
| PackedAssembler.MethodSlice | src/wknetlib/codec/Pack200BandParser.cpp:3055-3146 | the slice at a method's recorded offset and length is the assembled code of that method |
| PackedAssembler.CodeBands.ReadBytecodeBands | src/wknetlib/codec/Pack200BandParser.cpp:2540-3611 | a program is delivered exactly when the opcodes are readable and the supply goes on with its bands, and assembled exactly when it is assemblable too, with code, map and relocations in place; what the code says is the packed program |
| JavaCode.WalkMeetsMarks | src/wknetlib/codec/Pack200BandParser.cpp:3206-3587 | a virtual machine walking the code meets exactly the recorded instruction offsets |
| JavaCode.JumpsReachLabels | src/wknetlib/codec/Pack200BandParser.cpp:3296-3585 | every branch and switch displacement, read signed and added to its opcode's offset, is where its label points |
| JavaCode.LandingsAreMarks | src/wknetlib/codec/Pack200BandParser.cpp:3556-3585 | and that place is the start of an instruction of the same method |
| JavaCode.MatchesRead | src/wknetlib/codec/Pack200BandParser.cpp:3296-3394 | the case values a virtual machine reads, on the four-byte boundary it computes, are those of the bands |
| Utf8Bands.CpBands.ReadUtf8Bands | src/wknetlib/codec/Pack200BandParser.cpp:492-823 | succeeds exactly when the supply goes on with string bands, no prefix is too long and both totals have 32 bits; the UTF-16 and UTF-8 buffers are tiled by the strings and every count is met |
| Utf8Bands.BandsUnique | src/wknetlib/codec/Pack200BandParser.cpp:515-648 | the same integers spell the same string bands |
| Utf8Bands.MeasureStrings | src/wknetlib/codec/Pack200BandParser.cpp:660-690 | the length pass accepts exactly when every prefix is available and the total fits, and records every length |
| Utf8Bands.FillUtf16 | src/wknetlib/codec/Pack200BandParser.cpp:696-737 | string i is the stated prefix of string i-1 followed by its suffix, laid right behind it |
| Utf8Bands.MeasureUtf8 | src/wknetlib/codec/Pack200BandParser.cpp:747-782 | the counted size is that of the UTF-8 form |
| Utf8Bands.FillUtf8 | src/wknetlib/codec/Pack200BandParser.cpp:788-822 | the bytes written are the UTF-8 form, as many as counted, and nothing before them changes |
| Utf8Bands.SlicesDecode | src/wknetlib/codec/Pack200BandParser.cpp:758-822 | each slice decodes to the code points of its string, unpaired surrogates included, and back to its UTF-16 units |
| Utf8.DecodeInverts | src/wknetlib/codec/Pack200BandParser.cpp:804-820 | decoding the written bytes with a shortest-form decoder gives back the code points |
| FrontCoding.CodedInverts | src/wknetlib/codec/Pack200BandParser.cpp:650-748 | any list of strings, front-coded with any admissible prefixes and any choice of big suffixes, is read back |
| BandCoding.Cardinality | src/wknetlib/codec/Pack200BandCodec.cpp:26-45 | the computed cardinality is the number of values the bytes can spell, in every admitted coding |
| BandCoding.BandReader.ReadRaw | src/wknetlib/codec/Pack200BandCodec.cpp:80-104 | reads the number the bytes spell, and refuses exactly those that are cut short or exceed 32 bits; the weight check never fires |
| BandCoding.BandReader.ReadInt | src/wknetlib/codec/Pack200BandCodec.cpp:74-146 | value, position and running value are those of the specification, or it is refused |
| BandCoding.RawIsWritten | src/wknetlib/codec/Pack200BandCodec.cpp:80-104 | every number has one byte form |
| BandCoding.RecoverableExactly | src/wknetlib/codec/Pack200BandCodec.cpp:74-146 | for every admitted coding, a sequence of values can be sent and recovered if and only if each value is representable |
| BandCoding.BandInverts | src/wknetlib/codec/Pack200BandCodec.cpp:74-146 | a written sequence is read back under wrapping sums, using exactly its bytes whatever stands around them |
| BandCoding.NamedCodings | src/wknetlib/codec/Pack200BandCodec.h:31-56 | what the named codings carry: the three delta codings every 32-bit integer, the others exact ranges |
| Huffman.ChecksAreKraft | src/wknetlib/codec/ExiDecoder.cpp:3104-3120 | the running over-subscription checks all pass exactly when the Kraft sum is at most one |
| Huffman.CodesApart | src/wknetlib/codec/ExiDecoder.cpp:3113-3136 | the codes given out are prefix-free |
| Huffman.DecodeInverts | src/wknetlib/codec/ExiDecoder.cpp:3141-3166 | decoding returns a symbol exactly when its code stands there, and steps over just that code |
| DeflateScan.BuildCodes | src/wknetlib/codec/ExiDecoder.cpp:3081-3138 | accepts exactly the vectors with a code length and Kraft sum at most one, and numbers the symbols canonically |
| DeflateScan.NextSymbol | src/wknetlib/codec/ExiDecoder.cpp:3141-3166 | the bit-by-bit loop is the canonical decoder |
| DeflateScan.FindStreamLength | src/wknetlib/codec/ExiDecoder.cpp:3379-3449 | the walk over blocks finds a length exactly when the specification has one, which by `StreamIsFormat` is that of the stream standing there |
| DeflateStream.StreamIsFormat | src/wknetlib/codec/ExiDecoder.cpp:3379-3449 | a length is found if and only if a deflate stream of that length stands in the data: blocks up to the final one, stored with matching lengths, with the fixed codes, or with codes of their own |
| DeflateHeader.HeaderIsGrammar | src/wknetlib/codec/ExiDecoder.cpp:3202-3316 | the header of a dynamic block gives literals and distances if and only if the data spells the three counts, the lengths of the code-length code in their order and words that expand, copies and zeros included, to both vectors |
| DeflateWords.CodeIs | src/wknetlib/codec/ExiDecoder.cpp:3113-3136 | the number of a symbol's code, taken to fifteen bits, is the space of the codes ahead of it: all shorter ones and the equally long ones of smaller symbols |
| DeflateWords.WordIs | src/wknetlib/codec/ExiDecoder.cpp:3141-3166 | a symbol is read exactly where its code stands bit by bit, high bit first |
| DeflateGrammar.SkipIsGrammar | src/wknetlib/codec/ExiDecoder.cpp:3319-3376 | compressed data is skipped exactly when it spells literals, matches and an end of block, and just behind them |
| DeflateGrammar.EmptyDistancesRefused | src/wknetlib/codec/ExiDecoder.cpp:3137-3138 | an empty distance code is refused although its Kraft sum is zero |
| DeflateGrammar.HeaderAccepted | src/wknetlib/codec/ExiDecoder.cpp:3202-3316 | a header in order otherwise is accepted exactly when some distance has a code |
| DeflateSplit.LengthIsStable | src/wknetlib/codec/ExiDecoder.cpp:3379-3449 | the length found for a stream is found again whatever bytes follow the stream |
| DeflateSplit.CutIsConcat | src/wknetlib/codec/ExiDecoder.cpp:3471-3511 | cutting yields a list of streams exactly when it is the division of the data into complete streams |
| DeflateSplit.DecodeConcatenated | src/wknetlib/codec/ExiDecoder.cpp:3452-3512 | succeeds exactly when all streams inflate into the room left; the outputs tile the destination |
| LzwRoundTrip.DecodeInvertsEncode | src/wknetlib/codec/ContentCoding.cpp:1058-1203 | every text comes back from any encoder with the same width, alignment and clear rules, including codes used as they are defined |
| LzwRoundTrip.GreedyRoundTrip | src/wknetlib/codec/ContentCoding.cpp:1058-1203 | every byte string survives greedy compression, in both modes and at every width |
| LzwText.DecodeFromStart | src/wknetlib/codec/ContentCoding.cpp:1101-1202 | the decoder on strings reads the text of phrases: since the last clear, code b + j stands for phrase j with the first byte of phrase j + 1, in the least width that holds the codes known, up to the limit |
| LzwText.AlignIsLeast | src/wknetlib/codec/ContentCoding.cpp:1046-1055 | after widening from width w the position is the least multiple of 8 w not below the old one |
| LzwDecoder.ExpandCode | src/wknetlib/codec/ContentCoding.cpp:984-1023 | with every prefix smaller than its own index, expansion always ends, within the stack, with the code's string reversed |
| LzwDecoder.DecodeCodes | src/wknetlib/codec/ContentCoding.cpp:1058-1203 | the table-driven decoder succeeds exactly when the decoder on strings does and the text fits, with the same text |
| LzwDecoder.DecodeCompress | src/wknetlib/codec/ContentCoding.cpp:1206-1252 | the same behind a valid header, and exactly then |
| ExiBits.WrittenIsRead | src/wknetlib/codec/ExiEventReader.cpp:130-170 | n bits written in either mode are read back, consuming exactly what was written |
| ExiBits.BitsForCount | src/wknetlib/codec/ExiEventReader.cpp:243-259 | the width is the least that tells the alternatives apart, up to 2 to the 31 of them |
| ExiBits.UnsignedInverts | src/wknetlib/codec/ExiEventReader.cpp:192-215 | a value below 2 to the 35 is consumed whole and returned if and only if it fits 32 bits |
| Decimal.ReadArbitraryUnsignedText | src/wknetlib/codec/ExiValueDecoder.cpp:166-262 | for any number of octets the text is the decimal numeral of the number, plus one if asked, without leading zeros |
| Decimal.GroupsInvert | src/wknetlib/codec/ExiValueDecoder.cpp:190-207 | an unsigned integer of any size is read back group by group |
| Decimal.CanonicalIsNumeral | src/wknetlib/codec/ExiValueDecoder.cpp:208-261 | canonical digits are the one numeral of their value |
| ExiValues.InsertKeeps | src/wknetlib/codec/ExiStringTable.cpp:212-242 | taking the next slot keeps the arrays equal to the last additions seen through a ring |
| ExiValues.LocalNumbersStay | src/wknetlib/codec/ExiStringTable.cpp:265-287 | later additions never change what a local number names |
| ExiValues.ValueTable.AddLiteral | src/wknetlib/codec/ExiStringTable.cpp:176-243 | a literal joins the history exactly when it may and is not live; every refusal is characterised |
| ExiValues.ValueTable.ReadLocal | src/wknetlib/codec/ExiStringTable.cpp:245-288 | returns the un-evicted value with that local number, never an evicted one |
| ExiValues.ValueTable.ReadGlobal | src/wknetlib/codec/ExiStringTable.cpp:290-315 | every used slot holds a live value, which is returned |
| ExiStrings.ReadValueString | src/wknetlib/codec/ExiEventReader.cpp:573-621 | reads a hit or a literal exactly as specified and refuses exactly what has no reading |
| ExiStrings.StringInverts | src/wknetlib/codec/ExiEventReader.cpp:573-621 | a value written as local hit, global hit or literal is read back, and reader and writer hold the same partitions again |
| ExiPartitions.SequenceInverts | src/wknetlib/codec/ExiEventReader.cpp:573-621 | a sequence of values, said by a writer with a list of its own (the place among the values of the name, the slot among all, or the characters, in any way open to it by then), is read back value for value if and only if every literal has room when its turn comes; the reader then remembers what the writer does |
| ExiGrammars.LearnPrepends | src/wknetlib/codec/ExiGrammarTable.cpp:51-70 | a new production takes code zero of its own list, shifts the others by one and leaves all other lists alone |
| ExiGrammars.ListedDistinct | src/wknetlib/codec/ExiGrammarTable.cpp:24-49 | no list has a production twice |
| ExiGrammars.GrammarTable.GetByEventCode | src/wknetlib/codec/ExiGrammarTable.cpp:113-140 | an event code is valid exactly below the count and returns that newest production |
| ExiGrammars.EventCodeInverts | src/wknetlib/codec/ExiDecoder.cpp:1439-1622 | the event code an encoder with the same list wrote is read back as the event it said |
| ExiEvents.ReadIsOffered | src/wknetlib/codec/ExiDecoder.cpp:1729-1816 | whatever is read is an event the current grammar offers, with the stack effect it is meant to have |
| ExiEvents.EventDecoder.Move | src/wknetlib/codec/ExiDecoder.cpp:1148-1172 | moves exactly as the production says, refused only for a child without name or room, and keeps the heights of all grammar stacks in step with the open elements |
| ExiEvents.EventDecoder.OnEndElement | src/wknetlib/codec/ExiDecoder.cpp:1930-1990 | no end of an element is ever decoded without an open element |
| ExiEvents.EventDecoder.SelectSimpleType | src/wknetlib/codec/ExiDecoder.cpp:753-764 | a simple type is always selected for an element's own grammar; the refusal is never reached |
| ExiEvents.EventDecoder.DecodeEvents | src/wknetlib/codec/ExiDecoder.cpp:1852-2283 | succeeds exactly when every event up to the document's end is accepted, with the state these events lead to, which for an encoded document is that of `WordsDecode`; the sink then saw a balanced, well-nested sequence and every element was closed |
| ExiSpoken.SpeakReads | src/wknetlib/codec/ExiDecoder.cpp:1439-1728 | an event said by its place in the encoder's own list, or for the first time, is read as itself with its name, and the decoder's lists stay those of the encoder |
| ExiRoundTrip.WordsDecode | src/wknetlib/codec/ExiDecoder.cpp:1852-2283 | whatever stands in the data as the encoder's words for a document or fragment (prolog, attributes, declarations, nil and typed elements, elements as fragments of their own, notes) is decoded if and only if the stacks have room; the sink is told the events of the tree with its names |
| ExiEncoded.EncodedDecodes | src/wknetlib/codec/ExiDecoder.cpp:1827-2283 | every document can be encoded, and its encoding is decoded to its events if and only if its nesting has room in stacks of one entry more than it has bytes |
| ExiEncoded.DeepRefused | src/wknetlib/codec/ExiDecoder.cpp:1843-1866 | k + 2 elements inside each other take (41 + 2 k) / 8 bytes and are refused for every k from 5 on |
| ExiNamespaces.GeneratedBijection | src/wknetlib/codec/ExiDecoder.cpp:472-514 | generated prefixes and URIs are in bijection |
| ExiNamespaces.AddEnd | src/wknetlib/codec/ExiDecoder.cpp:429-470 | a closed element leaves no binding behind, and the scope stays unambiguous |
| ExiNamespaces.AddDeclaringStart | src/wknetlib/codec/ExiDecoder.cpp:563-612 | a start tag that declares its own prefix resolves to its URI |
| ExiNamespaces.XmlEventSink.ResolveName | src/wknetlib/codec/ExiDecoder.cpp:516-560 | gives the resolution its function gives; the prefix is bound to the name's URI, or new and not in use |
| ExiNamespaces.ResolvedExactly | src/wknetlib/codec/ExiDecoder.cpp:472-560 | a name is refused if and only if it needs a prefix, its URI has no active binding and the table of generated prefixes is full |
| ExiNamespaces.XmlEventSink.QNameAttribute | src/wknetlib/codec/ExiDecoder.cpp:315-373 | refused exactly as its function says; otherwise the attribute and its value are written with prefixes bound to their URIs, none declared twice |
| ExiChannels.ReorderedBlock.AddRecord | src/wknetlib/codec/ExiDecoder.cpp:2321-2358 | the linked lists are, after every event, the channels in order of first events with their events in document order |
| ExiChannels.MembersAre | src/wknetlib/codec/ExiDecoder.cpp:2321-2358 | a channel holds exactly the events of its name, in rising order |
| ExiChannels.OrderIs | src/wknetlib/codec/ExiDecoder.cpp:2333-2346 | channels are distinct, not empty and ordered by their first event |
| ExiChannels.EachValueOnce | src/wknetlib/codec/ExiDecoder.cpp:2870-2968 | in both branches every value event is read exactly once |
| ExiChannels.ReorderedBlock.ReadBlockValues | src/wknetlib/codec/ExiDecoder.cpp:2870-2968 | single input or streams of small and large channels: succeeds exactly when the specified reading of string values does, with its values |
| ExiChannels.BlockRestored | src/wknetlib/codec/ExiDecoder.cpp:2870-2884 | values written channel by channel in one stream come back to their own events |
| ExiChannels.SplitRestored | src/wknetlib/codec/ExiDecoder.cpp:2885-2968 | so do those of a large block, spread over streams |
| ExiReordered.DecodeBody | src/wknetlib/codec/ExiDecoder.cpp:2522-2995 | the loop over blocks and streams succeeds exactly when every block reads and replays and the last stream is used |
| ExiReordered.Replay | src/wknetlib/codec/ExiDecoder.cpp:2430-2518 | replays the events of a block in order, with their values and the rules of xsi:nil, or refuses the first one these forbid |
| ExiReplay.ReplayExactly | src/wknetlib/codec/ExiDecoder.cpp:2430-2518 | a replay succeeds if and only if every end has a start, the depth limit holds, every xsi:nil stands in an element and is spelled in one of four ways, elements marked true hold attributes, declarations and their end only, and nothing is self-contained; its log is the events in order with their values, xsi:nil saying the truth value sent |
| ExiReplay.BodyReplayed | src/wknetlib/codec/ExiDecoder.cpp:2430-2995 | so for whole written bodies |
| ExiReordered.BodyRestored | src/wknetlib/codec/ExiDecoder.cpp:2430-2995 | a whole body written in reordered form is decoded exactly when its events with their original values can be replayed, and replayed as the original events, names and string values, in the original order across all blocks |

## Left out

- Allocation failures, null-pointer parameter checks, tracing and locking are not modelled.
- The band decoder behind the Pack200 readers is a supply of 32-bit integers handed out on request; `BandCoding` models single integers, not the meta-coding that chooses a coding per band.
- Raw inflate is an uninterpreted function of the stream bytes; Brotli, Zstd, AEAD and HKDF are absent.
- The XML writer is a log of calls.
- WordsDecode, EncodedDecodes: the bits of names and values are given with the tree, names of two bits at least, and inputs of less than 256 megabytes; more alternatives than 2 to the 31 cannot be chosen among.
- DecodeEvents: what an event carries (names, values, flags, where its reading ends, whether the sink takes it) is a parameter.
- ReadBlockValues: typed channel values of built-in schema types are not modelled; values of type QName never enter a channel in the code.
- DecodeBody: the structure of a block is a parameter, its events and the position behind them; the limit on values per block and refusals by the sink are not modelled.
- StringInverts: the restricted character sets of lexical values are not modelled.
- Compile: the capacity checks of the tables and of the frame stack are proved unreachable and not repeated as branches.
- AttributeValueBands: the step limit is a field of the object, so that the proofs do not depend on its value; the frame array is the machine's stack.
- DeclaredAreMade: a layout that fits neither this nor `SoleCallersExactly` has only the condition per run of `ForcedExactly`, because which callables a run can enter depends on the limits of the executor.
- GrowBuffer: how many elements one allocation may hold is a parameter.
- GreedyRoundTrip, DecodeInvertsEncode: the encoder follows the decoder's rules for alignment, which on widening rounds the absolute bit offset and on a clear code does nothing; streams of encoders with other rules are not considered.
- DecodeAttribute: the choice of the next definition and the bookkeeping of occurrences around it are not modelled.
- BuildCodes: vectors of at most 65535 lengths, as the 16-bit counters require.
- HeaderAccepted: length and distance extra bits are given in closed form instead of tables.
- DecodeConcatenated: the number of streams an array may hold is a parameter.
- WordsInOrder: the order of the operand bands is the one the code reads them in; whether other writers of Pack200 keep the same order is not considered.
- ReadBytecodeBands: the overflow checks on counts that are bounded by the number of opcodes are not repeated.
- The text capacity for generated prefixes, and counters overflowing SIZE_T in the EXI tables, are not modelled.
- Date, float, base64 and boolean formatting, gzip and zlib headers, the EXI options and the class, field, method and annotation bands are straight-line reads and checks that would add bulk only.
