/**
  ELF headers and program headers as chapters 4, "Object Files", and 5, "Program Loading and Dynamic Linking", of
  the System V ABI lay them out, in both classes and byte orders, and what the two readers make of files laid out so.
 */
module ElfLayouts {
  import opened Common
  import opened Notes
  import opened ElfFiles

  // ----- words of a given width

  datatype Word = Word(value: nat, width: nat)

  function Below(width: nat): nat {
    if width == 0 then 1 else 256 * Below(width - 1)
  }

  /** A number in `width` bytes. */
  function Bytes(n: nat, width: nat, little: bool): (s: seq<byte>)
    ensures |s| == width
  {
    if width == 0 then []
    else if little then [n % 256] + Bytes(n / 256, width - 1, little)
    else Bytes(n / 256, width - 1, little) + [n % 256]
  }

  lemma {:induction false} BytesReadBack(n: nat, width: nat, little: bool)
    requires n < Below(width)
    ensures Unsigned(Bytes(n, width, little), little) == n
  {
    if width > 0 {
      BytesReadBack(n / 256, width - 1, little);
      var s := Bytes(n, width, little);
      if little {
        assert s[1..] == Bytes(n / 256, width - 1, little);
      } else {
        assert s[..|s| - 1] == Bytes(n / 256, width - 1, little);
      }
    }
  }

  /** A structure: its words one after the other. */
  function Packed(words: seq<Word>, little: bool): seq<byte> {
    if words == [] then []
    else Packed(words[..|words| - 1], little) + Bytes(words[|words| - 1].value, words[|words| - 1].width, little)
  }

  /** Where word i of the structure begins. */
  function Offset(words: seq<Word>, i: nat): nat
    requires i <= |words|
  {
    if i == 0 then 0 else Offset(words, i - 1) + words[i - 1].width
  }

  lemma {:induction false} OffsetOfPrefix(words: seq<Word>, more: nat, i: nat)
    requires i <= more <= |words|
    ensures Offset(words[..more], i) == Offset(words, i)
  {
    if i > 0 {
      OffsetOfPrefix(words, more, i - 1);
    }
  }

  lemma {:induction false} PackedSize(words: seq<Word>, little: bool)
    ensures |Packed(words, little)| == Offset(words, |words|)
  {
    if words != [] {
      PackedSize(words[..|words| - 1], little);
      OffsetOfPrefix(words, |words| - 1, |words| - 1);
    }
  }

  /** Word i can be read back from where it begins. */
  lemma {:induction false} WordReadsBack(words: seq<Word>, little: bool, i: nat)
    requires i < |words| && words[i].value < Below(words[i].width)
    ensures Offset(words, i) + words[i].width <= |Packed(words, little)|
    ensures Field(Packed(words, little), Offset(words, i), words[i].width, little) == words[i].value
  {
    hide Unsigned, Bytes, Below;
    PackedSize(words, little);
    var last := |words| - 1;
    PackedSize(words[..last], little);
    OffsetOfPrefix(words, last, last);
    var s, init := Packed(words, little), Packed(words[..last], little);
    if i == last {
      BytesReadBack(words[i].value, words[i].width, little);
      assert s[|init|..|s|] == Bytes(words[i].value, words[i].width, little);
    } else {
      WordReadsBack(words[..last], little, i);
      OffsetOfPrefix(words, last, i);
      var from, to := Offset(words, i), Offset(words, i) + words[i].width;
      assert s[from..to] == init[from..to];
    }
  }

  // ----- the structures

  datatype ElfHeader = ElfHeader(
    is64: bool, little: bool, identRest: seq<byte>,
    etype: nat, machine: nat, version: nat, entry: nat, phoff: nat, shoff: nat, flags: nat, ehsize: nat,
    phentsize: nat, phnum: nat, shentsize: nat, shnum: nat, shstrndx: nat)
  {
    /** The width of addresses and offsets. */
    function Wide(): nat {
      if is64 then 8 else 4
    }

    function Ident(): seq<byte> {
      [0x7f, 0x45, 0x4c, 0x46, if is64 then 2 else 1, if little then 1 else 2] + identRest
    }

    /** The header after its identification. */
    function Words(): seq<Word> {
      [Word(etype, 2), Word(machine, 2), Word(version, 4), Word(entry, Wide()), Word(phoff, Wide()), Word(shoff, Wide()),
       Word(flags, 4), Word(ehsize, 2), Word(phentsize, 2), Word(phnum, 2), Word(shentsize, 2), Word(shnum, 2), Word(shstrndx, 2)]
    }

    predicate Encodable() {
      |identRest| == 10 && forall w | w in Words() :: w.value < Below(w.width)
    }

    function Encoded(): seq<byte> {
      Ident() + Packed(Words(), little)
    }
  }

  datatype ProgramHeader = ProgramHeader(
    ptype: nat, flags: nat, offset: nat, vaddr: nat, paddr: nat, filesz: nat, memsz: nat, align: nat)
  {
    /** The flags come second in the 64-bit structure and second to last in the 32-bit one. */
    function Words(is64: bool): seq<Word> {
      if is64
      then [Word(ptype, 4), Word(flags, 4), Word(offset, 8), Word(vaddr, 8), Word(paddr, 8), Word(filesz, 8), Word(memsz, 8), Word(align, 8)]
      else [Word(ptype, 4), Word(offset, 4), Word(vaddr, 4), Word(paddr, 4), Word(filesz, 4), Word(memsz, 4), Word(flags, 4), Word(align, 4)]
    }

    predicate Encodable(is64: bool) {
      forall w | w in Words(is64) :: w.value < Below(w.width)
    }

    function Encoded(is64: bool, little: bool): seq<byte> {
      Packed(Words(is64), little)
    }
  }

  /** The three words of the header that the readers use, and its size. */
  lemma HeaderWordsReadBack(h: ElfHeader)
    requires h.Encodable()
    ensures var s, wide := Packed(h.Words(), h.little), h.Wide();
            && |s| == 24 + 3 * wide
            && Field(s, 8 + wide, wide, h.little) == h.phoff
            && Field(s, 14 + 3 * wide, 2, h.little) == h.phentsize && Field(s, 16 + 3 * wide, 2, h.little) == h.phnum
  {
    hide Unsigned, Bytes, Packed, Below;
    var ws, wide := h.Words(), h.Wide();
    PackedSize(ws, h.little);
    assert Offset(ws, 1) == 2 && Offset(ws, 2) == 4 && Offset(ws, 3) == 8 && Offset(ws, 4) == 8 + wide;
    assert Offset(ws, 5) == 8 + 2 * wide && Offset(ws, 6) == 8 + 3 * wide && Offset(ws, 7) == 12 + 3 * wide;
    assert Offset(ws, 8) == 14 + 3 * wide && Offset(ws, 9) == 16 + 3 * wide && Offset(ws, 10) == 18 + 3 * wide;
    assert Offset(ws, 11) == 20 + 3 * wide && Offset(ws, 12) == 22 + 3 * wide && Offset(ws, 13) == 24 + 3 * wide;
    assert ws[4] in ws && ws[8] in ws && ws[9] in ws;
    WordReadsBack(ws, h.little, 4);
    WordReadsBack(ws, h.little, 8);
    WordReadsBack(ws, h.little, 9);
  }

  lemma SegmentReadsBack(p: ProgramHeader, is64: bool, little: bool, entry: seq<byte>, t: Table)
    requires p.Encodable(is64) && p.Encoded(is64, little) <= entry && t.is64 == is64 && t.little == little
    ensures |entry| >= t.MinEntrySize() && SegmentOf(entry, t) == Segment(p.ptype, p.offset, p.filesz)
  {
    hide Unsigned, Bytes, Packed, Below;
    var ws := p.Words(is64);
    PackedSize(ws, little);
    assert forall i | 0 <= i < 8 :: ws[i] in ws;
    var w := if is64 then 8 else 4;
    assert Offset(ws, 1) == 4;
    assert Offset(ws, 2) == 8;
    assert Offset(ws, 3) == 8 + w && Offset(ws, 4) == 8 + 2 * w && Offset(ws, 5) == if is64 then 32 else 20;
    assert Offset(ws, 6) == (if is64 then 40 else 24) && Offset(ws, 7) == (if is64 then 48 else 28);
    assert Offset(ws, 8) == if is64 then 56 else 32;
    WordReadsBack(ws, little, 0);
    WordReadsBack(ws, little, if is64 then 2 else 1);
    WordReadsBack(ws, little, if is64 then 5 else 4);
    FieldOfPrefix(p.Encoded(is64, little), entry, 0, 4, little);
    if is64 {
      FieldOfPrefix(p.Encoded(is64, little), entry, 8, 8, little);
      FieldOfPrefix(p.Encoded(is64, little), entry, 32, 8, little);
    } else {
      FieldOfPrefix(p.Encoded(is64, little), entry, 4, 4, little);
      FieldOfPrefix(p.Encoded(is64, little), entry, 16, 4, little);
    }
  }

  lemma FieldOfPrefix(s: seq<byte>, t: seq<byte>, off: nat, size: nat, little: bool)
    requires s <= t && off + size <= |s|
    ensures Field(t, off, size, little) == Field(s, off, size, little)
  {
    assert t[off..off + size] == s[off..off + size];
  }

  // ----- the table

  /** A file that begins with an encoded header: its table is opened as the header says, or refused for the first fault of it. */
  lemma TableReadsBack(file: seq<byte>, h: ElfHeader)
    requires h.Encodable() && h.Encoded() <= file
    ensures OpenTable(file)
            == if h.phnum == 0 then Err(NoProgramHeaders)
               else if h.phentsize < (if h.is64 then 56 else 32) then Err(ImplausibleEntrySize)
               else if h.phoff + h.phentsize * h.phnum > |file| then Err(TablePastEof)
               else Ok(Table(h.is64, h.little, h.phoff, h.phentsize, h.phnum))
  {
    hide Unsigned, Bytes, Packed, Below;
    HeaderWordsReadBack(h);
    var s, size := Packed(h.Words(), h.little), if h.is64 then 64 else 52;
    assert |h.Encoded()| == size;
    assert file[..4] == h.Ident()[..4] == [0x7f, 0x45, 0x4c, 0x46];
    assert file[4] == h.Ident()[4] && file[5] == h.Ident()[5];
    var ehdr := file[0..size];
    assert ehdr[16..] == s;
    FieldAfterIdent(ehdr, s, 8 + h.Wide(), h.Wide(), h.little);
    FieldAfterIdent(ehdr, s, 14 + 3 * h.Wide(), 2, h.little);
    FieldAfterIdent(ehdr, s, 16 + 3 * h.Wide(), 2, h.little);
    assert TableOf(ehdr, h.is64, h.little) == Table(h.is64, h.little, h.phoff, h.phentsize, h.phnum);
  }

  lemma FieldAfterIdent(ehdr: seq<byte>, s: seq<byte>, off: nat, size: nat, little: bool)
    requires |ehdr| >= 16 && ehdr[16..] == s && off + size <= |s|
    ensures Field(ehdr, 16 + off, size, little) == Field(s, off, size, little)
  {
    assert ehdr[16 + off..16 + off + size] == s[off..off + size];
  }

  /** What begins with no such header is refused for being too short, for its magic, its class or its byte order. */
  lemma NoHeaderNoTable(file: seq<byte>)
    ensures |file| < 16 ==> OpenTable(file) == Err(FileTruncated)
    ensures |file| >= 16 && file[..4] != [0x7f, 0x45, 0x4c, 0x46] ==> OpenTable(file) == Err(BadMagic)
    ensures |file| >= 16 && file[..4] == [0x7f, 0x45, 0x4c, 0x46] ==>
              && (file[4] !in {1, 2} || file[5] !in {1, 2} ==> OpenTable(file) == Err(UnsupportedClass))
              && (file[4] in {1, 2} && file[5] in {1, 2} && |file| < (if file[4] == 2 then 64 else 52) ==>
                    OpenTable(file) == Err(FileTruncated))
  {
    hide Unsigned;
    if |file| >= 16 {
      assert file[0..16][..4] == file[..4];
    }
  }

  // ----- whole files

  /** A program header, and the notes of its segment if it is a note segment. */
  datatype Part = Part(header: ProgramHeader, notes: seq<Note>)

  function TableFor(h: ElfHeader): Table {
    Table(h.is64, h.little, h.phoff, h.phentsize, h.phnum)
  }

  ghost function EntryAt(file: seq<byte>, t: Table, i: nat): seq<byte>
    requires Fits(file, t) && i < t.count
  {
    EntryFits(file, t, i);
    file[t.off + i * t.entrySize..t.off + i * t.entrySize + t.entrySize]
  }

  /** The part's header is entry i of the table, and its notes, if it is a note segment, are where it says. */
  ghost predicate PartLaidOut(file: seq<byte>, t: Table, i: nat, part: Part)
    requires Fits(file, t) && i < t.count
  {
    var p := part.header;
    && p.Encodable(t.is64) && p.Encoded(t.is64, t.little) <= EntryAt(file, t, i)
    && (p.ptype == 4 ==>
          && (forall n | n in part.notes :: n.Encodable()) && p.filesz == |EncodedAll(part.notes, t.little)|
          && (p.filesz > 0 ==>
                p.offset + p.filesz <= |file| && file[p.offset..p.offset + p.filesz] == EncodedAll(part.notes, t.little)))
  }

  /** A file with these parts, wherever in it the table and the segments are and whatever else is in it. */
  ghost predicate LaidOut(file: seq<byte>, h: ElfHeader, parts: seq<Part>) {
    && h.Encodable() && h.Encoded() <= file && |parts| == h.phnum > 0
    && h.phentsize >= (if h.is64 then 56 else 32) && h.phoff + h.phentsize * h.phnum <= |file|
    && forall i | 0 <= i < |parts| :: PartLaidOut(file, TableFor(h), i, parts[i])
  }

  /** The build id of the part's segment. */
  function IdOf(part: Part): Option<seq<byte>> {
    if part.header.ptype == 4 then FirstBuildId(part.notes) else None
  }

  /** The first id in the order of the table; empty ones count or not. */
  function FirstId(parts: seq<Part>, empties: bool): Option<seq<byte>> {
    if parts == [] then None
    else if IdOf(parts[0]).Some? && (empties || IdOf(parts[0]) != Some([])) then IdOf(parts[0])
    else FirstId(parts[1..], empties)
  }

  lemma {:induction false} FirstIdAt(parts: seq<Part>, empties: bool, i: nat)
    requires i < |parts| && IdOf(parts[i]).Some? && (empties || IdOf(parts[i]) != Some([]))
    requires forall j | 0 <= j < i :: IdOf(parts[j]).None? || (!empties && IdOf(parts[j]) == Some([]))
    ensures FirstId(parts, empties) == IdOf(parts[i])
  {
    if i > 0 {
      FirstIdAt(parts[1..], empties, i - 1);
    }
  }

  lemma {:induction false} NoFirstId(parts: seq<Part>, empties: bool)
    requires forall j | 0 <= j < |parts| :: IdOf(parts[j]).None? || (!empties && IdOf(parts[j]) == Some([]))
    ensures FirstId(parts, empties).None?
  {
    if parts != [] {
      NoFirstId(parts[1..], empties);
    }
  }

  /** Header i of such a file contributes the id of part i, to the host and, in a little-endian file, to the probe. */
  lemma PartReadsBack(file: seq<byte>, t: Table, i: nat, part: Part)
    requires Fits(file, t) && i < t.count && PartLaidOut(file, t, i, part)
    ensures SegmentAt(file, t, i) == Segment(part.header.ptype, part.header.offset, part.header.filesz)
    ensures NoteAt(file, t, i) == Ok(IdOf(part))
    ensures t.little ==> ProbedAt(file, t, i) == IdOf(part)
  {
    hide Unsigned, Packed, Scan, Parse, EncodedAll, FirstBuildId, SegmentOf;
    var p := part.header;
    SegmentReadsBack(p, t.is64, t.little, EntryAt(file, t, i), t);
    assert SegmentAt(file, t, i) == SegmentOf(EntryAt(file, t, i), t);
    if p.ptype == 4 {
      ScanUndoesEncoding(part.notes, t.little);
      assert ReadExact(file, p.offset, p.filesz) == Ok(EncodedAll(part.notes, t.little));
      assert Slice(file, p.offset, p.offset + p.filesz) == EncodedAll(part.notes, t.little);
    }
  }

  /**
    Reading undoes laying out. Of a file laid out from any header and any parts, in either class and byte
    order, the host's reader answers the first build id of the notes in the order of the table, and that
    there is none if there is none.
   */
  lemma ReaderUndoesLayout(file: seq<byte>, h: ElfHeader, parts: seq<Part>, r: Result<seq<byte>, BuildIdError>)
    requires LaidOut(file, h, parts) && Answers(file, r)
    ensures r == match FirstId(parts, true) case Some(id) => Ok(id) case None => Err(NoBuildIdNote)
  {
    hide NoteAt, IdOf, FirstId, PartLaidOut, OpenTable;
    TableReadsBack(file, h);
    var t := TableFor(h);
    forall i | 0 <= i < |parts|
      ensures NoteAt(file, t, i) == Ok(IdOf(parts[i]))
    {
      PartReadsBack(file, t, i, parts[i]);
    }
    if r.Ok? {
      var i :| FoundAt(file, t, i, r.value);
      FirstIdAt(parts, true, i);
    } else {
      NoFirstId(parts, true);
    }
  }

  /** The probe answers the first that is not empty, of a little-endian file. */
  lemma ProbeUndoesLayout(file: seq<byte>, h: ElfHeader, parts: seq<Part>, id: Option<seq<byte>>)
    requires LaidOut(file, h, parts) && h.little && ProbeAnswers(file, id)
    ensures id == FirstId(parts, false)
  {
    hide ProbedAt, IdOf, FirstId, PartLaidOut, OpenTable, ProbedTable;
    TableReadsBack(file, h);
    TablesAgree(file);
    var t := TableFor(h);
    forall i | 0 <= i < |parts|
      ensures ProbedAt(file, t, i) == IdOf(parts[i])
    {
      PartReadsBack(file, t, i, parts[i]);
    }
    if id.Some? {
      var i :| ProbedFirst(file, t, i, id.value);
      FirstIdAt(parts, false, i);
    } else {
      NoFirstId(parts, false);
    }
  }
}
