/**
  The two note scanners: the host's, which aligns against the start of the blob and gives up on a
  note that runs past its end, and the probe's, which rounds sizes up by mask and slices what is there.
 */
module Notes {
  import opened Common

  type byte = x: int | 0 <= x < 256

  const NT_GNU_BUILD_ID := 3
  const GNU: seq<byte> := [0x47, 0x4e, 0x55]
  const WORD := 0x1_0000_0000

  /** An unsigned integer of the bytes of s, in either byte order. */
  function Unsigned(s: seq<byte>, little: bool): (n: nat) {
    if s == [] then 0
    else if little then s[0] + 256 * Unsigned(s[1..], little)
    else Unsigned(s[..|s| - 1], little) * 256 + s[|s| - 1]
  }

  function U32(blob: seq<byte>, off: nat, little: bool): nat
    requires off + 4 <= |blob|
  {
    Unsigned(blob[off..off + 4], little)
  }

  /** A Python slice: what there is of the asked-for range. */
  function Slice(blob: seq<byte>, from: nat, to: nat): seq<byte> {
    if from >= |blob| || to <= from then [] else if to <= |blob| then blob[from..to] else blob[from..]
  }

  function WithoutTrailingZeros(s: seq<byte>): seq<byte> {
    if s != [] && s[|s| - 1] == 0 then WithoutTrailingZeros(s[..|s| - 1]) else s
  }

  predicate NamesGnu(name: seq<byte>) {
    WithoutTrailingZeros(name) == GNU
  }

  /** A name of "GNU" and any number of zero bytes, and no other. */
  lemma {:induction false} NamesGnuExactly(name: seq<byte>)
    ensures NamesGnu(name) <==> |name| >= 3 && name[..3] == [0x47, 0x4e, 0x55] && forall i | 3 <= i < |name| :: name[i] == 0
  {
    if name != [] && name[|name| - 1] == 0 {
      NamesGnuExactly(name[..|name| - 1]);
      if |name| > 3 {
        assert name[..|name| - 1][..3] == name[..3];
      }
    }
  }

  /** The next multiple of four at or after n. */
  function Aligned(n: nat): (r: nat)
    ensures n <= r < n + 4 && r % 4 == 0
  {
    var m: int := n;
    var pad := (-m) % 4;
    assert (m + pad) % 4 == 0;
    m + pad
  }

  /** n + 3 with its two low bits cleared. */
  function Masked(n: nat): (r: nat)
    ensures n <= r < n + 4 && r % 4 == 0
  {
    (n + 3) - (n + 3) % 4
  }

  lemma MaskIsAlignment(off: nat, n: nat)
    requires off % 4 == 0
    ensures Aligned(off + n) == off + Masked(n)
  {
    hide Aligned, Masked;
  }

  // ----- the host's scanner

  /** How a scan ends: with an id, at the end of the blob, or in the note at `at`, which runs past it. */
  datatype Outcome = Found(desc: seq<byte>) | Ended | Truncated(at: nat) {
    function Id(): Option<seq<byte>> {
      if Found? then Some(desc) else None
    }
  }

  /** The fields of the note whose header starts at `off`. */
  datatype Header = Header(name: nat, nameEnd: nat, desc: nat, descEnd: nat, ntype: nat, next: nat)

  function HeaderAt(blob: seq<byte>, off: nat, little: bool): (h: Header)
    requires off + 12 <= |blob|
    ensures off + 12 == h.name <= h.nameEnd <= h.desc <= h.descEnd <= h.next
  {
    var namesz, descsz := U32(blob, off, little), U32(blob, off + 4, little);
    var nameEnd := off + 12 + namesz;
    var desc := Aligned(nameEnd);
    Header(off + 12, nameEnd, desc, desc + descsz, U32(blob, off + 8, little), Aligned(desc + descsz))
  }

  function Scan(blob: seq<byte>, off: nat, little: bool): Outcome
    decreases |blob| - off
  {
    if off + 12 > |blob| then Ended
    else
      var h := HeaderAt(blob, off, little);
      if h.descEnd > |blob| then Truncated(off)
      else if h.ntype == NT_GNU_BUILD_ID && NamesGnu(blob[h.name..h.nameEnd]) then Found(blob[h.desc..h.descEnd])
      else Scan(blob, h.next, little)
  }

  method ScanNotes(blob: seq<byte>, little: bool) returns (id: Option<seq<byte>>)
    ensures id == Scan(blob, 0, little).Id()
  {
    hide Aligned, U32, WithoutTrailingZeros;
    var off := 0;
    while off + 12 <= |blob|
      invariant Scan(blob, off, little) == Scan(blob, 0, little)
      decreases |blob| - off
    {
      var namesz, descsz, ntype := U32(blob, off, little), U32(blob, off + 4, little), U32(blob, off + 8, little);
      var nameEnd := off + 12 + namesz;
      var descStart := Aligned(nameEnd);
      var descEnd := descStart + descsz;
      assert HeaderAt(blob, off, little) == Header(off + 12, nameEnd, descStart, descEnd, ntype, Aligned(descEnd));
      if descEnd > |blob| {
        return None;
      }
      if ntype == NT_GNU_BUILD_ID && NamesGnu(blob[off + 12..nameEnd]) {
        return Some(blob[descStart..descEnd]);
      }
      off := Aligned(descEnd);
    }
    return None;
  }

  // ----- the probe's scanner

  function Parse(blob: seq<byte>, off: nat): Option<seq<byte>>
    decreases |blob| - off
  {
    if off + 12 > |blob| then None
    else
      var namesz, descsz := U32(blob, off, true), U32(blob, off + 4, true);
      var name, desc := off + 12, off + 12 + Masked(namesz);
      if U32(blob, off + 8, true) == NT_GNU_BUILD_ID && NamesGnu(Slice(blob, name, name + namesz))
      then Some(Slice(blob, desc, desc + descsz))
      else Parse(blob, desc + Masked(descsz))
  }

  method ParseNotes(blob: seq<byte>) returns (id: Option<seq<byte>>)
    ensures id == Parse(blob, 0)
  {
    hide Masked, U32, WithoutTrailingZeros, Slice;
    var off := 0;
    while off + 12 <= |blob|
      invariant Parse(blob, off) == Parse(blob, 0)
      decreases |blob| - off
    {
      var namesz, descsz, ntype := U32(blob, off, true), U32(blob, off + 4, true), U32(blob, off + 8, true);
      off := off + 12;
      var name := Slice(blob, off, off + namesz);
      off := off + Masked(namesz);
      var desc := Slice(blob, off, off + descsz);
      off := off + Masked(descsz);
      if ntype == NT_GNU_BUILD_ID && NamesGnu(name) {
        return Some(desc);
      }
    }
    return None;
  }

  /** What the probe's scanner makes of a note that runs past the end: an id cut short, or nothing. */
  function Cut(blob: seq<byte>, at: nat): Option<seq<byte>>
    requires at + 12 <= |blob|
  {
    var h := HeaderAt(blob, at, true);
    if h.ntype == NT_GNU_BUILD_ID && NamesGnu(Slice(blob, h.name, h.nameEnd)) then Some(Slice(blob, h.desc, h.descEnd))
    else None
  }

  /**
    On little-endian blobs the probe's scanner returns the host's id whenever the host finds one, and
    nothing when the host reaches the end. The two differ only on a blob that ends inside a note: there the
    host gives up, and the probe takes what is left of the descriptor if that note's header matches.
   */
  lemma {:induction false} ScannersAgree(blob: seq<byte>, off: nat)
    requires off % 4 == 0
    ensures match Scan(blob, off, true)
            case Found(desc) => Parse(blob, off) == Some(desc)
            case Ended => Parse(blob, off).None?
            case Truncated(at) => at + 12 <= |blob| && Parse(blob, off) == Cut(blob, at)
    decreases |blob| - off
  {
    hide Aligned, Masked, U32, WithoutTrailingZeros;
    if off + 12 <= |blob| {
      var h := HeaderAt(blob, off, true);
      MaskIsAlignment(off + 12, U32(blob, off, true));
      MaskIsAlignment(h.desc, U32(blob, off + 4, true));
      if h.descEnd <= |blob| {
        assert Slice(blob, h.name, h.nameEnd) == blob[h.name..h.nameEnd];
        assert Slice(blob, h.desc, h.descEnd) == blob[h.desc..h.descEnd];
        ScannersAgree(blob, h.next);
      }
    }
  }

  // ----- where the two differ

  /** A build-id note of four bytes in either byte order, cut off after `kept` of them. */
  function ShortNote(little: bool, kept: nat): seq<byte>
    requires kept <= 4
  {
    U32Bytes(4, little) + U32Bytes(4, little) + U32Bytes(NT_GNU_BUILD_ID, little) + [0x47, 0x4e, 0x55, 0]
    + [0xab, 0xcd, 0xef, 0x01][..kept]
  }

  lemma ShortNoteHeader(little: bool, kept: nat)
    requires kept <= 4
    ensures var b := ShortNote(little, kept);
            && |b| == 16 + kept && U32(b, 0, little) == 4 && U32(b, 4, little) == 4 && U32(b, 8, little) == NT_GNU_BUILD_ID
            && b[12..16] == [0x47, 0x4e, 0x55, 0] && b[16..] == [0xab, 0xcd, 0xef, 0x01][..kept]
  {
    hide Unsigned, U32Bytes;
    var b := ShortNote(little, kept);
    U32BytesRead(4, little);
    U32BytesRead(NT_GNU_BUILD_ID, little);
    assert b[0..4] == U32Bytes(4, little) && b[4..8] == U32Bytes(4, little) && b[8..12] == U32Bytes(NT_GNU_BUILD_ID, little);
  }

  lemma PaddedNamesGnu()
    ensures NamesGnu([0x47, 0x4e, 0x55, 0])
  {
    assert [0x47, 0x4e, 0x55, 0][..3] == GNU;
    assert WithoutTrailingZeros(GNU) == GNU;
  }

  /** A clipped input: of a little-endian note that lost half its descriptor the host reads nothing, the probe the half. */
  lemma ClippedNoteDiffers()
    ensures Scan(ShortNote(true, 2), 0, true).Id().None?
    ensures Parse(ShortNote(true, 2), 0) == Some([0xab, 0xcd])
  {
    hide Unsigned, U32, ShortNote, WithoutTrailingZeros;
    var b := ShortNote(true, 2);
    ShortNoteHeader(true, 2);
    PaddedNamesGnu();
    assert Slice(b, 12, 16) == [0x47, 0x4e, 0x55, 0];
    assert Slice(b, 16, 20) == [0xab, 0xcd];
  }

  /** A big-endian input: the host reads the whole note's id, the probe, reading every word backwards, none. */
  lemma BigEndianNoteDiffers()
    ensures Scan(ShortNote(false, 4), 0, false).Id() == Some([0xab, 0xcd, 0xef, 0x01])
    ensures Parse(ShortNote(false, 4), 0).None?
  {
    hide Unsigned, U32, ShortNote, WithoutTrailingZeros;
    var b := ShortNote(false, 4);
    ShortNoteHeader(false, 4);
    PaddedNamesGnu();
    Backwards();
    assert b[16..20] == b[16..] == [0xab, 0xcd, 0xef, 0x01];
  }

  lemma Backwards()
    ensures U32(ShortNote(false, 4), 0, true) == 0x0400_0000
    ensures U32(ShortNote(false, 4), 8, true) == 0x0300_0000
  {
    hide Unsigned;
    var b := ShortNote(false, 4);
    assert b[0..4] == [0, 0, 0, 4] && b[8..12] == [0, 0, 0, 3];
    FourBytes(0, 0, 0, 4);
    FourBytes(0, 0, 0, 3);
  }

  // ----- note sections as chapter 5, "Note Section", of the System V ABI lays them out

  datatype Note = Note(name: seq<byte>, desc: seq<byte>, ntype: nat) {
    predicate Encodable() {
      |name| < WORD && |desc| < WORD && ntype < WORD
    }

    predicate IsBuildId() {
      ntype == NT_GNU_BUILD_ID && NamesGnu(name)
    }
  }

  function U32Bytes(n: nat, little: bool): (s: seq<byte>)
    requires n < WORD
    ensures |s| == 4
  {
    if little then [n % 256, n / 256 % 256, n / 65536 % 256, n / 16777216]
    else [n / 16777216, n / 65536 % 256, n / 256 % 256, n % 256]
  }

  lemma U32BytesRead(n: nat, little: bool)
    requires n < WORD
    ensures Unsigned(U32Bytes(n, little), little) == n
  {
    var a, b, c, d := n % 256, n / 256 % 256, n / 65536 % 256, n / 16777216;
    assert n == a + 256 * b + 65536 * c + 16777216 * d;
    FourBytes(a, b, c, d);
  }

  lemma FourBytes(a: byte, b: byte, c: byte, d: byte)
    ensures Unsigned([a, b, c, d], true) == a + 256 * b + 65536 * c + 16777216 * d
    ensures Unsigned([d, c, b, a], false) == a + 256 * b + 65536 * c + 16777216 * d
  {
    assert [a, b, c, d][1..] == [b, c, d] && [b, c, d][1..] == [c, d] && [c, d][1..] == [d] && [d][1..] == [];
    assert Unsigned([d], true) == d && Unsigned([c, d], true) == c + 256 * d;
    assert Unsigned([b, c, d], true) == b + 256 * (c + 256 * d);
    assert [d, c, b, a][..3] == [d, c, b] && [d, c, b][..2] == [d, c] && [d, c][..1] == [d] && [d][..0] == [];
    assert Unsigned([d], false) == d && Unsigned([d, c], false) == d * 256 + c;
    assert Unsigned([d, c, b], false) == (d * 256 + c) * 256 + b;
  }

  function Zeros(n: nat): (s: seq<byte>)
    ensures |s| == n
  {
    seq(n, _ => 0)
  }

  function Padded(s: seq<byte>): (p: seq<byte>)
    ensures |p| == Aligned(|s|)
  {
    s + Zeros(Aligned(|s|) - |s|)
  }

  function Encoded(note: Note, little: bool): seq<byte>
    requires note.Encodable()
  {
    U32Bytes(|note.name|, little) + U32Bytes(|note.desc|, little) + U32Bytes(note.ntype, little)
    + Padded(note.name) + Padded(note.desc)
  }

  function EncodedAll(notes: seq<Note>, little: bool): seq<byte>
    requires forall n | n in notes :: n.Encodable()
  {
    if notes == [] then [] else Encoded(notes[0], little) + EncodedAll(notes[1..], little)
  }

  /** The descriptor of the first build-id note, if there is one. */
  function FirstBuildId(notes: seq<Note>): Option<seq<byte>> {
    if notes == [] then None
    else if notes[0].IsBuildId() then Some(notes[0].desc)
    else FirstBuildId(notes[1..])
  }

  /** Reading a note back where it was written. */
  lemma HeaderReadsBack(before: seq<byte>, note: Note, after: seq<byte>, little: bool)
    requires |before| % 4 == 0 && note.Encodable()
    ensures var blob := before + Encoded(note, little) + after; var p := |before|;
            && p + 12 <= |blob|
            && HeaderAt(blob, p, little)
               == Header(p + 12, p + 12 + |note.name|, p + 12 + Aligned(|note.name|),
                         p + 12 + Aligned(|note.name|) + |note.desc|, note.ntype, |before + Encoded(note, little)|)
            && blob[p + 12..p + 12 + |note.name|] == note.name
            && blob[p + 12 + Aligned(|note.name|)..p + 12 + Aligned(|note.name|) + |note.desc|] == note.desc
  {
    hide Unsigned, U32Bytes, Aligned, Padded, Encoded;
    U32BytesRead(|note.name|, little);
    U32BytesRead(|note.desc|, little);
    U32BytesRead(note.ntype, little);
    PartsOfNote(before, note, after, little);
    AlignedFrom(|before| + 12, |note.name|);
    AlignedFrom(|before| + 12 + Aligned(|note.name|), |note.desc|);
  }

  /** Where the parts of an encoded note lie. */
  lemma PartsOfNote(before: seq<byte>, note: Note, after: seq<byte>, little: bool)
    requires note.Encodable()
    ensures var blob := before + Encoded(note, little) + after; var p := |before|;
            && |before + Encoded(note, little)| == p + 12 + Aligned(|note.name|) + Aligned(|note.desc|) <= |blob|
            && blob[p..p + 4] == U32Bytes(|note.name|, little)
            && blob[p + 4..p + 8] == U32Bytes(|note.desc|, little)
            && blob[p + 8..p + 12] == U32Bytes(note.ntype, little)
            && blob[p + 12..p + 12 + |note.name|] == note.name
            && blob[p + 12 + Aligned(|note.name|)..p + 12 + Aligned(|note.name|) + |note.desc|] == note.desc
  {
    hide U32Bytes, Aligned;
  }

  lemma AlignedFrom(base: nat, n: nat)
    requires base % 4 == 0
    ensures Aligned(base + n) == base + Aligned(n)
  {
    hide Aligned;
  }

  lemma {:induction false} ScanReadsBack(before: seq<byte>, notes: seq<Note>, little: bool)
    requires |before| % 4 == 0 && forall n | n in notes :: n.Encodable()
    ensures Scan(before + EncodedAll(notes, little), |before|, little)
            == match FirstBuildId(notes) case None => Ended case Some(desc) => Found(desc)
    decreases |notes|
  {
    hide Aligned, HeaderAt, Encoded, WithoutTrailingZeros;
    if notes == [] {
      assert before + EncodedAll(notes, little) == before;
    } else {
      var rest := EncodedAll(notes[1..], little);
      var blob := before + EncodedAll(notes, little);
      assert blob == before + Encoded(notes[0], little) + rest;
      HeaderReadsBack(before, notes[0], rest, little);
      EncodedAligned(notes[0], little);
      ScanReadsBack(before + Encoded(notes[0], little), notes[1..], little);
    }
  }

  lemma EncodedAligned(note: Note, little: bool)
    requires note.Encodable()
    ensures |Encoded(note, little)| % 4 == 0
  {
    hide Aligned, U32Bytes, Padded;
    SumAligned(Aligned(|note.name|), Aligned(|note.desc|));
  }

  lemma SumAligned(m: nat, n: nat)
    requires m % 4 == 0 && n % 4 == 0
    ensures (12 + m + n) % 4 == 0
  {
  }

  /** Scanning undoes printing: over any list of notes, in either byte order, the first build-id note's descriptor, or none. */
  lemma ScanUndoesEncoding(notes: seq<Note>, little: bool)
    requires forall n | n in notes :: n.Encodable()
    ensures Scan(EncodedAll(notes, little), 0, little).Id() == FirstBuildId(notes)
    ensures little ==> Parse(EncodedAll(notes, little), 0) == FirstBuildId(notes)
  {
    ScanReadsBack([], notes, little);
    assert [] + EncodedAll(notes, little) == EncodedAll(notes, little);
    if little {
      ScannersAgree(EncodedAll(notes, little), 0);
    }
  }
}
