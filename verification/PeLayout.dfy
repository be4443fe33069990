/** What a PE file is, byte by byte, and that the reader of app/scripts/windows-symbol-pair.py finds its
    CodeView record. The offsets are those of the PE format: "MZ" and the offset of the signature at 0x3C, the
    COFF header, the optional header in its two formats, the section table and the debug directory. */
module PeLayout {
  import opened Bytes
  import opened Options
  import opened PeImage
  import SymbolPair

  type word = n: nat | n < WORD

  type short = n: nat | n < 0x1_0000

  datatype Format = Pe32 | Pe32Plus

  datatype Section = Section(virtualSize: word, address: word, rawSize: word, raw: word)
  {
    function Extent(): nat {
      if virtualSize < rawSize then rawSize else virtualSize
    }

    predicate Contains(rva: nat) {
      address <= rva < address + Extent()
    }
  }

  datatype Entry = Entry(kind: word, size: word, pointer: word)

  datatype Layout = Layout(
    pe: word, format: Format, optionalSize: short, sections: seq<Section>,
    debugAddress: word, debugSize: word,
    // The section that holds the debug directory, if one does, and the directory's entries.
    home: Option<nat>, entries: seq<Entry>)

  // These bytes lie at this offset.
  predicate LiesAt(data: bytes, offset: nat, s: bytes) {
    offset + |s| <= |data| && data[offset..offset + |s|] == s
  }

  function MagicBytes(f: Format): bytes {
    match f
    case Pe32 => [0x0B, 0x01]
    case Pe32Plus => [0x0B, 0x02]
  }

  // Where the seventh data directory is: after the fields of the optional header and six directories.
  function DebugSlot(l: Layout): nat {
    match l.format
    case Pe32 => l.pe + 24 + 96 + 6 * 8
    case Pe32Plus => l.pe + 24 + 112 + 6 * 8
  }

  predicate HeadersLie(data: bytes, l: Layout) {
    && |data| >= 0x40 && LiesAt(data, 0, [0x4D, 0x5A]) && LiesAt(data, 0x3C, Le32(l.pe))
    && LiesAt(data, l.pe, [0x50, 0x45, 0, 0])
    && |l.sections| < 0x1_0000 && LiesAt(data, l.pe + 6, Le16(|l.sections|))
    && LiesAt(data, l.pe + 20, Le16(l.optionalSize))
    && LiesAt(data, l.pe + 24, MagicBytes(l.format))
    && LiesAt(data, DebugSlot(l), Le32(l.debugAddress) + Le32(l.debugSize))
  }

  // The section table follows the optional header; an entry of it takes 40 bytes.
  function SectionAt(l: Layout, i: nat): nat {
    l.pe + 24 + l.optionalSize + 40 * i
  }

  predicate SectionLies(data: bytes, l: Layout, i: nat)
    requires i < |l.sections|
  {
    var x := l.sections[i];
    LiesAt(data, SectionAt(l, i) + 8, Le32(x.virtualSize) + Le32(x.address) + Le32(x.rawSize) + Le32(x.raw))
  }

  // Where the debug directory's entry `k` is in the file; an entry takes 28 bytes.
  function EntryAt(l: Layout, k: nat): int
    requires l.home.Some? && l.home.value < |l.sections|
  {
    var x := l.sections[l.home.value];
    x.raw + (l.debugAddress - x.address) + 28 * k
  }

  predicate EntryLies(data: bytes, l: Layout, k: nat)
    requires l.home.Some? && l.home.value < |l.sections| && k < |l.entries|
    requires l.sections[l.home.value].address <= l.debugAddress
  {
    && EntryAt(l, k) + 28 <= |data|
    && LiesAt(data, EntryAt(l, k) + 12, Le32(l.entries[k].kind) + Le32(l.entries[k].size))
    && LiesAt(data, EntryAt(l, k) + 24, Le32(l.entries[k].pointer))
  }

  /** A PE image with its debug directory: no two sections claim the directory, and all of it is in the file. */
  ghost predicate IsPe(data: bytes, l: Layout) {
    && HeadersLie(data, l)
    && (forall i | 0 <= i < |l.sections| :: SectionLies(data, l, i))
    && (forall i | 0 <= i < |l.sections| :: l.sections[i].Contains(l.debugAddress) <==> l.home == Some(i))
    && (l.home.Some? ==>
          && l.home.value < |l.sections| && l.debugSize == 28 * |l.entries|
          && forall k | 0 <= k < |l.entries| :: EntryLies(data, l, k))
  }

  // A CodeView entry whose data begins with "RSDS".
  predicate IsCodeViewEntry(data: bytes, e: Entry) {
    e.kind == 2 && e.size >= 24 && LiesAt(data, e.pointer, [0x52, 0x53, 0x44, 0x53])
  }

  // The record is the signature, the GUID's sixteen bytes and the age.
  predicate RecordLies(data: bytes, e: Entry, guid: bytes, age: word) {
    |guid| == 16 && LiesAt(data, e.pointer, [0x52, 0x53, 0x44, 0x53] + guid + Le32(age))
  }

  // ---- reading what lies there ----

  lemma ReadsWord(data: bytes, offset: nat, n: word)
    requires LiesAt(data, offset, Le32(n))
    ensures U32(data, offset) == n
  {
    DigitsOf(n);
    var s := data[offset..offset + 4];
    assert s[0] == Le32(n)[0] && s[1] == Le32(n)[1] && s[2] == Le32(n)[2] && s[3] == Le32(n)[3];
  }

  lemma ReadsShort(data: bytes, offset: nat, n: short)
    requires LiesAt(data, offset, Le16(n))
    ensures U16(data, offset) == n
  {
    assert data[offset..offset + 2][0] == Le16(n)[0] && data[offset..offset + 2][1] == Le16(n)[1];
  }

  lemma LiesInParts(data: bytes, offset: nat, s: bytes, t: bytes)
    requires LiesAt(data, offset, s + t)
    ensures LiesAt(data, offset, s) && LiesAt(data, offset + |s|, t)
  {
    assert data[offset..offset + |s|] == (s + t)[..|s|] == s;
    assert data[offset + |s|..offset + |s| + |t|] == (s + t)[|s|..] == t;
  }

  lemma HeaderIsRead(data: bytes, l: Layout)
    requires HeadersLie(data, l)
    ensures ReadHeader(data) == Ok(Header(|l.sections|, l.pe + 24 + l.optionalSize, l.debugAddress, l.debugSize))
  {
    hide U32, U16, Le32, Le16;
    ReadsWord(data, 0x3C, l.pe);
    ReadsShort(data, l.pe + 6, |l.sections|);
    ReadsShort(data, l.pe + 20, l.optionalSize);
    LiesInParts(data, DebugSlot(l), Le32(l.debugAddress), Le32(l.debugSize));
    ReadsWord(data, DebugSlot(l), l.debugAddress);
    ReadsWord(data, DebugSlot(l) + 4, l.debugSize);
    MagicIsRead(data, l);
    assert data[..2] == data[0..2];
  }

  lemma MagicIsRead(data: bytes, l: Layout)
    requires LiesAt(data, l.pe + 24, MagicBytes(l.format))
    ensures l.pe + 26 <= |data| && U16(data, l.pe + 24) == if l.format.Pe32? then 0x10B else 0x20B
  {
    var at := l.pe + 24;
    assert data[at..at + 2][0] == MagicBytes(l.format)[0] && data[at..at + 2][1] == MagicBytes(l.format)[1];
  }

  function HeaderOf(l: Layout): Header {
    Header(|l.sections|, l.pe + 24 + l.optionalSize, l.debugAddress, l.debugSize)
  }

  lemma SectionIsRead(data: bytes, l: Layout, i: nat)
    requires i < |l.sections| && SectionLies(data, l, i)
    ensures Readable(data, HeaderOf(l), i)
    ensures Covers(data, HeaderOf(l), i) <==> l.sections[i].Contains(l.debugAddress)
    ensures Covers(data, HeaderOf(l), i) ==>
              Entries(data, HeaderOf(l), i) == l.sections[i].raw + (l.debugAddress - l.sections[i].address)
  {
    hide U32, Le32;
    var x, at := l.sections[i], SectionAt(l, i) + 8;
    LiesInParts(data, at, Le32(x.virtualSize) + Le32(x.address) + Le32(x.rawSize), Le32(x.raw));
    LiesInParts(data, at, Le32(x.virtualSize) + Le32(x.address), Le32(x.rawSize));
    LiesInParts(data, at, Le32(x.virtualSize), Le32(x.address));
    ReadsWord(data, at, x.virtualSize);
    ReadsWord(data, at + 4, x.address);
    ReadsWord(data, at + 8, x.rawSize);
    ReadsWord(data, at + 12, x.raw);
  }

  // The four bytes of the signature, as the reader compares them.
  lemma SignatureIsRead(data: bytes, pointer: nat)
    ensures Holds(data, pointer, RSDS) <==> LiesAt(data, pointer, [0x52, 0x53, 0x44, 0x53])
  {}

  lemma EntryIsRead(data: bytes, l: Layout, k: nat)
    requires l.home.Some? && l.home.value < |l.sections| && k < |l.entries|
    requires l.sections[l.home.value].address <= l.debugAddress && EntryLies(data, l, k)
    ensures var offset: nat := EntryAt(l, k);
            && offset + 28 <= |data| && U32(data, offset + 24) == l.entries[k].pointer
            && (IsRsds(data, offset) <==> IsCodeViewEntry(data, l.entries[k]))
            && (!IsCodeViewEntry(data, l.entries[k]) ==> PassedOver(data, offset))
  {
    hide U32, Le32, LiesAt, Holds;
    var e, offset: nat := l.entries[k], EntryAt(l, k);
    LiesInParts(data, offset + 12, Le32(e.kind), Le32(e.size));
    ReadsWord(data, offset + 12, e.kind);
    ReadsWord(data, offset + 16, e.size);
    ReadsWord(data, offset + 24, e.pointer);
    SignatureIsRead(data, e.pointer);
  }

  lemma RecordIsRead(data: bytes, offset: nat, e: Entry, guid: bytes, age: word)
    requires IsRsds(data, offset) && U32(data, offset + 24) == e.pointer && RecordLies(data, e, guid, age)
    ensures Record(data, offset) == Ok(SymbolPair.Identity(guid, age))
  {
    hide U32, Le32, IsRsds;
    LiesInParts(data, e.pointer, [0x52, 0x53, 0x44, 0x53] + guid, Le32(age));
    LiesInParts(data, e.pointer, [0x52, 0x53, 0x44, 0x53], guid);
    ReadsWord(data, e.pointer + 20, age);
  }

  // Entry `k` is the directory's first CodeView entry.
  ghost predicate IsFirst(data: bytes, l: Layout, k: nat) {
    k < |l.entries| && IsCodeViewEntry(data, l.entries[k]) && forall m | 0 <= m < k :: !IsCodeViewEntry(data, l.entries[m])
  }

  lemma FirstIsFound(data: bytes, l: Layout, k: nat)
    requires IsPe(data, l) && l.home.Some? && IsFirst(data, l, k)
    ensures Readable(data, HeaderOf(l), l.home.value) && Covers(data, HeaderOf(l), l.home.value)
    ensures Entries(data, HeaderOf(l), l.home.value) + ENTRY * k == EntryAt(l, k)
    ensures FirstMatch(data, HeaderOf(l), l.home.value, k)
  {
    var h, i := HeaderOf(l), l.home.value;
    assert l.sections[i].Contains(l.debugAddress);
    hide HeadersLie, SectionLies, EntryLies, IsCodeViewEntry, Readable, Covers, Entries, IsRsds, PassedOver, IsFirst;
    EntriesLie(data, l, k);
    forall j | 0 <= j <= i ensures Readable(data, h, j) && (Covers(data, h, j) <==> j == i) {
      SectionIsRead(data, l, j);
    }
    SectionIsRead(data, l, i);
    forall m | 0 <= m < k ensures PassedOver(data, Entries(data, h, i) + ENTRY * m) {
      EntriesLie(data, l, m);
      EarlierIsNone(data, l, k, m);
      EntryIsRead(data, l, m);
    }
    IsFirstEntry(data, l, k);
    EntryIsRead(data, l, k);
  }

  lemma IsFirstEntry(data: bytes, l: Layout, k: nat)
    requires IsFirst(data, l, k)
    ensures k < |l.entries| && IsCodeViewEntry(data, l.entries[k])
  {}

  lemma EarlierIsNone(data: bytes, l: Layout, k: nat, m: nat)
    requires IsFirst(data, l, k) && m < k
    ensures k < |l.entries| && !IsCodeViewEntry(data, l.entries[m])
  {}

  lemma EntriesLie(data: bytes, l: Layout, k: nat)
    requires IsPe(data, l) && l.home.Some?
    ensures l.home.value < |l.sections| && l.sections[l.home.value].address <= l.debugAddress
    ensures l.debugSize == 28 * |l.entries|
    ensures k < |l.entries| ==> EntryLies(data, l, k)
  {
    assert l.sections[l.home.value].Contains(l.debugAddress);
  }

  lemma {:induction false} NothingCovers(data: bytes, h: Header, from: nat)
    requires from <= h.sections && forall j | from <= j < h.sections :: Readable(data, h, j)
    requires forall j | from <= j < h.sections && Covers(data, h, j) :: NoMatch(data, Entries(data, h, j), h.debugSize)
    ensures ScanSections(data, h, from) == Err(MissingIdentity)
    decreases h.sections - from
  {
    hide Readable, Covers, Entries, PassedOver, ScanEntries;
    if from < h.sections {
      if Covers(data, h, from) { NothingFound(data, Entries(data, h, from), 0, h.debugSize); }
      NothingCovers(data, h, from + 1);
    }
  }

  lemma NoneIsFound(data: bytes, l: Layout)
    requires IsPe(data, l) && (l.home.Some? ==> forall k | 0 <= k < |l.entries| :: !IsCodeViewEntry(data, l.entries[k]))
    ensures ScanSections(data, HeaderOf(l), 0) == Err(MissingIdentity)
  {
    var h := HeaderOf(l);
    hide HeadersLie, EntryLies, IsCodeViewEntry, Readable, Covers, Entries, PassedOver;
    forall j | 0 <= j < |l.sections| ensures Readable(data, h, j)
      ensures Covers(data, h, j) ==> NoMatch(data, Entries(data, h, j), h.debugSize)
    {
      SectionIsRead(data, l, j);
      if Covers(data, h, j) {
        EntriesLie(data, l, 0);
        forall m: nat | ENTRY * m < h.debugSize ensures PassedOver(data, Entries(data, h, j) + ENTRY * m) {
          EntriesLie(data, l, m);
          EntryIsRead(data, l, m);
        }
      }
    }
    NothingCovers(data, h, 0);
  }

  lemma MatchIsReturned(data: bytes, h: Header, i: nat, k: nat, offset: nat)
    requires ReadHeader(data) == Ok(h) && FirstMatch(data, h, i, k) && offset == Entries(data, h, i) + ENTRY * k
    ensures IsRsds(data, offset) && Parse(data) == Record(data, offset)
  {
    FirstRsdsIsRead(data, i, k);
  }

  lemma PeHeaderIsRead(data: bytes, l: Layout)
    requires IsPe(data, l)
    ensures ReadHeader(data) == Ok(HeaderOf(l))
  {
    HeaderIsRead(data, l);
  }

  lemma FirstEntryIs(data: bytes, l: Layout, k: nat)
    requires IsPe(data, l) && l.home.Some? && IsFirst(data, l, k)
    ensures k < |l.entries| && l.home.value < |l.sections| && EntryAt(l, k) >= 0
    ensures IsRsds(data, EntryAt(l, k)) && U32(data, EntryAt(l, k) + 24) == l.entries[k].pointer
  {
    EntriesLie(data, l, k);
    IsFirstEntry(data, l, k);
    hide IsPe, IsFirst, LiesAt, EntryLies;
    EntryIsRead(data, l, k);
  }

  lemma FirstIsReturned(data: bytes, l: Layout, k: nat)
    requires IsPe(data, l) && l.home.Some? && IsFirst(data, l, k)
    ensures k < |l.entries| && l.home.value < |l.sections| && EntryAt(l, k) >= 0
    ensures IsRsds(data, EntryAt(l, k)) && U32(data, EntryAt(l, k) + 24) == l.entries[k].pointer
    ensures Parse(data) == Record(data, EntryAt(l, k))
  {
    hide *;
    PeHeaderIsRead(data, l);
    FirstEntryIs(data, l, k);
    FirstIsFound(data, l, k);
    MatchIsReturned(data, HeaderOf(l), l.home.value, k, EntryAt(l, k));
  }

  lemma RecordFits(data: bytes, offset: nat)
    requires IsRsds(data, offset)
    ensures Record(data, offset) != Err(MissingIdentity)
    ensures U32(data, offset + 24) + 24 > |data| ==> Record(data, offset) == Err(Truncated)
  {}

  lemma NoneIsReturned(data: bytes, l: Layout)
    requires IsPe(data, l) && (l.home.Some? ==> forall k | 0 <= k < |l.entries| :: !IsCodeViewEntry(data, l.entries[k]))
    ensures Parse(data) == Err(MissingIdentity)
  {
    HeaderIsRead(data, l);
    hide IsPe, ReadHeader, ScanSections;
    NoneIsFound(data, l);
  }

  lemma FirstEntry(data: bytes, l: Layout, n: nat) returns (k: nat)
    requires n < |l.entries| && IsCodeViewEntry(data, l.entries[n])
    ensures IsFirst(data, l, k)
  {
    k := n;
    if m :| 0 <= m < n && IsCodeViewEntry(data, l.entries[m]) { k := FirstEntry(data, l, m); }
  }

  /** For every PE image, of either format and with any sections before the one that holds the debug
      directory, the reader returns the GUID bytes and the age of the directory's first CodeView record. It
      says that the identity is missing exactly when no section holds a directory with such an entry. */
  lemma FirstCodeViewIsRead(data: bytes, l: Layout, k: nat, guid: bytes, age: word)
    requires IsPe(data, l)
    ensures l.home.Some? && IsFirst(data, l, k) && RecordLies(data, l.entries[k], guid, age) ==>
              Parse(data) == Ok(SymbolPair.Identity(guid, age))
    ensures l.home.Some? && IsFirst(data, l, k) && l.entries[k].pointer + 24 > |data| ==> Parse(data) == Err(Truncated)
    ensures Parse(data) == Err(MissingIdentity) <==>
            l.home.None? || forall m | 0 <= m < |l.entries| :: !IsCodeViewEntry(data, l.entries[m])
  {
    if l.home.Some? && IsFirst(data, l, k) {
      FirstIsReturned(data, l, k);
      RecordFits(data, EntryAt(l, k));
      if RecordLies(data, l.entries[k], guid, age) { RecordIsRead(data, EntryAt(l, k), l.entries[k], guid, age); }
    }
    hide IsPe, Parse, IsCodeViewEntry, Record;
    if l.home.None? || forall m | 0 <= m < |l.entries| :: !IsCodeViewEntry(data, l.entries[m]) {
      NoneIsReturned(data, l);
    } else {
      var n :| 0 <= n < |l.entries| && IsCodeViewEntry(data, l.entries[n]);
      var first := FirstEntry(data, l, n);
      FirstIsReturned(data, l, first);
      RecordFits(data, EntryAt(l, first));
    }
  }

  /** Whatever the bytes, the errors of the headers say what is wrong with them. */
  lemma HeaderErrors(data: bytes)
    ensures Parse(data) == Err(NotPe) <==> !LiesAt(data, 0, [0x4D, 0x5A])
    ensures Parse(data) == Err(MissingSignature) <==>
            LiesAt(data, 0, [0x4D, 0x5A]) && |data| >= 0x40 && !LiesAt(data, U32(data, 0x3C), [0x50, 0x45, 0, 0])
    ensures Parse(data) == Err(UnknownHeader) <==>
              LiesAt(data, 0, [0x4D, 0x5A]) && |data| >= 0x40 && LiesAt(data, U32(data, 0x3C), [0x50, 0x45, 0, 0])
              && U32(data, 0x3C) + 26 <= |data| && !LiesAt(data, U32(data, 0x3C) + 24, MagicBytes(Pe32))
              && !LiesAt(data, U32(data, 0x3C) + 24, MagicBytes(Pe32Plus))
  {
    assert |data| >= 2 ==> data[..2] == data[0..2];
    hide ScanSections, U32;
    if ReadHeader(data).Ok? { ScanErrors(data, ReadHeader(data).value, 0); }
    if |data| >= 0x40 {
      var at := U32(data, 0x3C) + 24;
      if at + 2 <= |data| { assert data[at..at + 2][0] == data[at] && data[at..at + 2][1] == data[at + 1]; }
    }
  }

  lemma {:induction false} ScanErrors(data: bytes, h: Header, from: nat)
    ensures ScanSections(data, h, from).Err? ==> ScanSections(data, h, from).error in {Truncated, MissingIdentity}
    decreases h.sections - from
  {
    hide Readable, Covers, Entries, ScanEntries;
    if from < h.sections && Readable(data, h, from) {
      if Covers(data, h, from) { EntryErrors(data, Entries(data, h, from), 0, h.debugSize); }
      ScanErrors(data, h, from + 1);
    }
  }

  lemma {:induction false} EntryErrors(data: bytes, start: nat, at: nat, size: nat)
    ensures var r := ScanEntries(data, start, at, size); r.Some? && r.value.Err? ==> r.value.error == Truncated
    decreases size + ENTRY - at
  {
    if at < size { EntryErrors(data, start, at + ENTRY, size); }
  }
}
