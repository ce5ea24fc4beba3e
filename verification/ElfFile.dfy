/**
  Walking the program headers of an ELF file for its build id: the host's reader, which reports what
  is wrong with a file, and the probe's, which answers with an id or nothing.
 */
module ElfFiles {
  import opened Common
  import opened Notes

  const PT_NOTE := 4
  const MAGIC: seq<byte> := [0x7f, 0x45, 0x4c, 0x46]

  datatype BuildIdError =
    | FileTruncated | BadMagic | UnsupportedClass | NoProgramHeaders | ImplausibleEntrySize | TablePastEof | NoBuildIdNote

  /** seek and read of exactly `size` bytes; a read of nothing succeeds anywhere. */
  function ReadExact(file: seq<byte>, off: nat, size: nat): (r: Result<seq<byte>, BuildIdError>)
    ensures r.Ok? ==> |r.value| == size
  {
    if size == 0 then Ok([]) else if off + size <= |file| then Ok(file[off..off + size]) else Err(FileTruncated)
  }

  function Field(blob: seq<byte>, off: nat, size: nat, little: bool): nat
    requires off + size <= |blob|
  {
    Unsigned(blob[off..off + size], little)
  }

  /** What the identification and header say about the program-header table. */
  datatype Table = Table(is64: bool, little: bool, off: nat, entrySize: nat, count: nat) {
    function MinEntrySize(): nat {
      if is64 then 56 else 32
    }
  }

  function TableOf(ehdr: seq<byte>, is64: bool, little: bool): Table
    requires |ehdr| >= if is64 then 64 else 52
  {
    if is64 then Table(true, little, Field(ehdr, 32, 8, little), Field(ehdr, 54, 2, little), Field(ehdr, 56, 2, little))
    else Table(false, little, Field(ehdr, 28, 4, little), Field(ehdr, 42, 2, little), Field(ehdr, 44, 2, little))
  }

  /** The checks before the walk, in order. */
  function OpenTable(file: seq<byte>): Result<Table, BuildIdError> {
    var ident :- ReadExact(file, 0, 16);
    if ident[..4] != MAGIC then Err(BadMagic)
    else if !(ident[4] == 1 || ident[4] == 2) || !(ident[5] == 1 || ident[5] == 2) then Err(UnsupportedClass)
    else
      var is64, little := ident[4] == 2, ident[5] == 1;
      var ehdr :- ReadExact(file, 0, if is64 then 64 else 52);
      var t := TableOf(ehdr, is64, little);
      if t.count == 0 then Err(NoProgramHeaders)
      else if t.entrySize < t.MinEntrySize() then Err(ImplausibleEntrySize)
      else if t.off + t.entrySize * t.count > |file| then Err(TablePastEof)
      else Ok(t)
  }

  datatype Segment = Segment(ptype: nat, offset: nat, filesz: nat)

  function SegmentOf(entry: seq<byte>, t: Table): Segment
    requires |entry| >= t.MinEntrySize()
  {
    if t.is64 then Segment(Field(entry, 0, 4, t.little), Field(entry, 8, 8, t.little), Field(entry, 32, 8, t.little))
    else Segment(Field(entry, 0, 4, t.little), Field(entry, 4, 4, t.little), Field(entry, 16, 4, t.little))
  }

  /** The entries of the table, each `entrySize` bytes of the file. */
  ghost predicate Fits(file: seq<byte>, t: Table) {
    t.entrySize >= t.MinEntrySize() && t.off + t.entrySize * t.count <= |file|
  }

  lemma EntryFits(file: seq<byte>, t: Table, i: nat)
    requires Fits(file, t) && i < t.count
    ensures t.off + i * t.entrySize + t.entrySize <= |file|
    ensures i * t.entrySize + t.entrySize <= t.entrySize * t.count
  {
    assert (i + 1) * t.entrySize <= t.count * t.entrySize;
  }

  ghost function SegmentAt(file: seq<byte>, t: Table, i: nat): Segment
    requires Fits(file, t) && i < t.count
  {
    EntryFits(file, t, i);
    var start := t.off + i * t.entrySize;
    SegmentOf(file[start..start + t.entrySize], t)
  }

  /** What the i-th header contributes: nothing, an id, or the failure of reading its segment. */
  ghost function NoteAt(file: seq<byte>, t: Table, i: nat): Result<Option<seq<byte>>, BuildIdError>
    requires Fits(file, t) && i < t.count
  {
    var s := SegmentAt(file, t, i);
    if s.ptype != PT_NOTE then Ok(None)
    else
      var blob :- ReadExact(file, s.offset, s.filesz);
      Ok(Scan(blob, 0, t.little).Id())
  }

  /** An id was found at header i and nowhere before it. */
  ghost predicate FoundAt(file: seq<byte>, t: Table, i: nat, id: seq<byte>)
    requires Fits(file, t)
  {
    i < t.count && NoteAt(file, t, i) == Ok(Some(id)) && forall j | 0 <= j < i :: NoteAt(file, t, j) == Ok(None)
  }

  /** The segment of header i runs past the end of the file, and no header before it gave an id. */
  ghost predicate UnreadableAt(file: seq<byte>, t: Table, i: nat)
    requires Fits(file, t)
  {
    i < t.count && NoteAt(file, t, i) == Err(FileTruncated) && forall j | 0 <= j < i :: NoteAt(file, t, j) == Ok(None)
  }

  /**
    The answer of a walk over the table is one of three. An id: the first over the PT_NOTE segments in table
    order. A failed segment read: that segment came before any id. No id: every segment was read and had none.
   */
  ghost predicate Walked(file: seq<byte>, t: Table, r: Result<seq<byte>, BuildIdError>)
    requires Fits(file, t)
  {
    match r
    case Ok(id) => exists i :: FoundAt(file, t, i, id)
    case Err(e) =>
      || (e == NoBuildIdNote && forall j | 0 <= j < t.count :: NoteAt(file, t, j) == Ok(None))
      || (e == FileTruncated && exists i :: UnreadableAt(file, t, i))
  }

  /** The reader's answer: what is wrong before the walk, or else the walk's. */
  ghost predicate Answers(file: seq<byte>, r: Result<seq<byte>, BuildIdError>) {
    match OpenTable(file)
    case Err(e) => r == Err(e)
    case Ok(t) => Fits(file, t) && Walked(file, t, r)
  }

  /**
    The host's reader. Every field it unpacks lies inside the bytes it has read.
   */
  method ReadElfBuildId(file: seq<byte>) returns (r: Result<seq<byte>, BuildIdError>)
    ensures Answers(file, r)
  {
    hide Unsigned, Scan;
    var ident :- ReadExact(file, 0, 16);
    if ident[..4] != MAGIC {
      return Err(BadMagic);
    }
    if !(ident[4] == 1 || ident[4] == 2) || !(ident[5] == 1 || ident[5] == 2) {
      return Err(UnsupportedClass);
    }
    var is64, little := ident[4] == 2, ident[5] == 1;
    var ehdr :- ReadExact(file, 0, if is64 then 64 else 52);
    var t := TableOf(ehdr, is64, little);
    if t.count == 0 {
      return Err(NoProgramHeaders);
    }
    if t.entrySize < t.MinEntrySize() {
      return Err(ImplausibleEntrySize);
    }
    var tableBytes := t.entrySize * t.count;
    if t.off + tableBytes > |file| {
      return Err(TablePastEof);
    }
    assert OpenTable(file) == Ok(t) && Fits(file, t);
    r := WalkTable(file, t);
  }

  lemma SliceOfSlice(s: seq<byte>, a: nat, b: nat, c: nat, d: nat)
    requires a <= b <= |s| && c <= d <= b - a
    ensures s[a..b][c..d] == s[a + c..a + d]
  {
    forall i | 0 <= i < d - c
      ensures s[a..b][c..d][i] == s[a + c..a + d][i]
    {
    }
    assert |s[a..b][c..d]| == |s[a + c..a + d]|;
  }

  method WalkTable(file: seq<byte>, t: Table) returns (r: Result<seq<byte>, BuildIdError>)
    requires Fits(file, t)
    ensures Walked(file, t, r)
  {
    hide Unsigned, Scan, NamesGnu;
    var phdrs := ReadExact(file, t.off, t.entrySize * t.count).value;
    for i := 0 to t.count
      invariant forall j | 0 <= j < i :: NoteAt(file, t, j) == Ok(None)
    {
      EntryFits(file, t, i);
      var ph := i * t.entrySize;
      var entry := phdrs[ph..ph + t.entrySize];
      assert t.entrySize * t.count != 0;
      assert phdrs == file[t.off..t.off + t.entrySize * t.count];
      SliceOfSlice(file, t.off, t.off + t.entrySize * t.count, ph, ph + t.entrySize);
      var s := SegmentOf(entry, t);
      assert s == SegmentAt(file, t, i);
      if s.ptype == PT_NOTE {
        var read := ReadExact(file, s.offset, s.filesz);
        if read.Err? {
          assert UnreadableAt(file, t, i);
          return Err(read.error);
        }
        var blob := read.value;
        var id := ScanNotes(blob, t.little);
        if id.Some? {
          assert FoundAt(file, t, i, id.value);
          return Ok(id.value);
        }
      }
    }
    return Err(NoBuildIdNote);
  }

  // ----- the probe's walk

  /** Header i as the probe sees it: a clipped segment, scanned as little-endian whatever the file says. */
  ghost function ProbedAt(file: seq<byte>, t: Table, i: nat): Option<seq<byte>>
    requires Fits(file, t) && i < t.count
  {
    var s := SegmentAt(file, t, i);
    if s.ptype != PT_NOTE then None else Parse(Slice(file, s.offset, s.offset + s.filesz), 0)
  }

  /** The table as the probe reads it: any class but 2 is 32-bit, any byte order but 1 is big-endian. */
  function ProbedTable(file: seq<byte>): Option<Table> {
    var head := Slice(file, 0, 64);
    if |head| < 6 || head[..4] != MAGIC then None
    else
      var is64, little := head[4] == 2, head[5] == 1;
      if |head| < (if is64 then 58 else 46) then None
      else
        var t := if is64 then Table(true, little, Field(head, 32, 8, little), Field(head, 54, 2, little), Field(head, 56, 2, little))
                 else Table(false, little, Field(head, 28, 4, little), Field(head, 42, 2, little), Field(head, 44, 2, little));
        if t.count == 0 || t.entrySize < t.MinEntrySize() || t.off + t.count * t.entrySize > |file| then None
        else Some(t)
  }

  lemma TableFits(file: seq<byte>)
    ensures ProbedTable(file).Some? ==> Fits(file, ProbedTable(file).value)
  {
    hide Unsigned;
  }

  /** The first non-empty id, or nothing; no error is told apart from any other. */
  ghost predicate ProbeAnswers(file: seq<byte>, id: Option<seq<byte>>) {
    match ProbedTable(file)
    case None => id.None?
    case Some(t) =>
      && Fits(file, t)
      && match id
         case None => forall j | 0 <= j < t.count :: ProbedAt(file, t, j).None? || ProbedAt(file, t, j) == Some([])
         case Some(d) => d != [] && exists i :: ProbedFirst(file, t, i, d)
  }

  method ElfBuildId(file: seq<byte>) returns (id: Option<seq<byte>>)
    ensures ProbeAnswers(file, id)
  {
    hide Unsigned, Parse, NamesGnu, SegmentOf, Slice, ProbedTable;
    TableFits(file);
    var table := ProbedTable(file);
    if table.None? {
      return None;
    }
    var t := table.value;
    for i := 0 to t.count
      invariant forall j | 0 <= j < i :: ProbedAt(file, t, j).None? || ProbedAt(file, t, j) == Some([])
    {
      EntryFits(file, t, i);
      var start := t.off + i * t.entrySize;
      var s := SegmentOf(file[start..start + t.entrySize], t);
      assert s == SegmentAt(file, t, i);
      if s.ptype == PT_NOTE {
        var bid := ParseNotes(Slice(file, s.offset, s.offset + s.filesz));
        if bid.Some? && bid.value != [] {
          assert ProbedFirst(file, t, i, bid.value);
          return bid;
        }
      }
    }
    return None;
  }

  ghost predicate ProbedFirst(file: seq<byte>, t: Table, i: nat, id: seq<byte>)
    requires Fits(file, t)
  {
    && i < t.count && id != [] && ProbedAt(file, t, i) == Some(id)
    && forall j | 0 <= j < i :: ProbedAt(file, t, j).None? || ProbedAt(file, t, j) == Some([])
  }

  /** The id cut short by the end of a blob, where the blob ends inside a build-id note. */
  function CutShort(blob: seq<byte>): Option<seq<byte>> {
    match Scan(blob, 0, true)
    case Truncated(at) => if at + 12 <= |blob| then Cut(blob, at) else None
    case _ => None
  }

  /** No note segment before header i ends inside a build-id note with some of its descriptor left. */
  ghost predicate NoneCutBefore(file: seq<byte>, t: Table, i: nat)
    requires Fits(file, t) && i <= t.count
  {
    forall j | 0 <= j < i ::
      var s := SegmentAt(file, t, j);
      s.ptype == PT_NOTE ==> var c := CutShort(Slice(file, s.offset, s.offset + s.filesz)); c.None? || c == Some([])
  }

  lemma TablesAgree(file: seq<byte>)
    requires OpenTable(file).Ok?
    ensures ProbedTable(file) == Some(OpenTable(file).value)
  {
    hide Unsigned;
    var ident := ReadExact(file, 0, 16).value;
    var head := Slice(file, 0, 64);
    assert ident[..4] == head[..4] && ident[4] == head[4] && ident[5] == head[5];
    if ident[4] == 2 {
      assert ReadExact(file, 0, 64).value == head;
    } else {
      var ehdr := ReadExact(file, 0, 52).value;
      assert ehdr[28..32] == head[28..32] && ehdr[42..44] == head[42..44] && ehdr[44..46] == head[44..46];
    }
  }

  /** Where the host reads an id the probe reads the same, and where it reads none the probe reads what was cut short. */
  lemma HeadersAgree(file: seq<byte>, t: Table, i: nat)
    requires Fits(file, t) && t.little && i < t.count && NoteAt(file, t, i).Ok?
    ensures NoteAt(file, t, i).value.Some? ==> ProbedAt(file, t, i) == NoteAt(file, t, i).value
    ensures NoteAt(file, t, i).value.None? ==>
              var s := SegmentAt(file, t, i);
              ProbedAt(file, t, i) == if s.ptype == PT_NOTE then CutShort(Slice(file, s.offset, s.offset + s.filesz)) else None
  {
    hide Unsigned, Parse, Scan, NamesGnu, Cut, SegmentOf;
    var s := SegmentAt(file, t, i);
    if s.ptype == PT_NOTE {
      var blob := ReadExact(file, s.offset, s.filesz).value;
      assert Slice(file, s.offset, s.offset + s.filesz) == blob;
      ScannersAgree(blob, 0);
    }
  }

  /**
    On a little-endian file whose first id, as the host reads it, is not empty, the probe answers with
    that id, from the same header, if and only if no note segment before it ends inside a build-id note
    with some of its descriptor left.
   */
  lemma ProbeAgrees(file: seq<byte>, i: nat, id: seq<byte>)
    requires OpenTable(file).Ok?
    requires var t := OpenTable(file).value; t.little && Fits(file, t) && FoundAt(file, t, i, id) && id != []
    ensures var t := OpenTable(file).value;
            ProbedTable(file) == Some(t) && (ProbedFirst(file, t, i, id) <==> NoneCutBefore(file, t, i))
  {
    hide Unsigned, Parse, Scan, NamesGnu, SegmentOf, SegmentAt, NoteAt, ProbedAt, CutShort, OpenTable, ProbedTable;
    TablesAgree(file);
    var t := OpenTable(file).value;
    HeadersAgree(file, t, i);
    forall j | 0 <= j < i
      ensures NoteAt(file, t, j) == Ok(None)
      ensures var s := SegmentAt(file, t, j);
              ProbedAt(file, t, j) == if s.ptype == PT_NOTE then CutShort(Slice(file, s.offset, s.offset + s.filesz)) else None
    {
      HeadersAgree(file, t, j);
    }
  }
}
