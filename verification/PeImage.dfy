/** The PE reader of app/scripts/windows-symbol-pair.py, as it is written. */
module PeImage {
  import opened Bytes
  import opened Options
  import SymbolPair

  datatype Error = NotPe | Truncated | MissingSignature | UnknownHeader | MissingIdentity

  type Identity = SymbolPair.Identity

  const MZ: bytes := [77, 90]
  const PE: bytes := [80, 69, 0, 0]
  const RSDS: bytes := [82, 83, 68, 83]
  const CODE_VIEW := 2
  const ENTRY := 28
  const SECTION := 40

  function U16(s: bytes, offset: nat): nat
    requires offset + 2 <= |s|
  {
    s[offset] as nat + 0x100 * s[offset + 1] as nat
  }

  // A slice that Python cuts short at the end of the data is not the four bytes.
  predicate Holds(data: bytes, offset: nat, four: bytes)
    requires |four| == 4
  {
    offset + 4 <= |data| && data[offset..offset + 4] == four
  }

  // What the headers say: where the section table is, and the debug directory's address and size.
  datatype Header = Header(sections: nat, table: nat, debugAddress: nat, debugSize: nat)

  function ReadHeader(data: bytes): Result<Header, Error> {
    if |data| < 2 || data[..2] != MZ then Err(NotPe)
    else if |data| < 64 then Err(Truncated)
    else
      var pe := U32(data, 0x3C);
      if !Holds(data, pe, PE) then Err(MissingSignature)
      else if |data| < pe + 26 then Err(Truncated)
      else
        var optional := pe + 24;
        var magic := U16(data, optional);
        if magic != 0x10B && magic != 0x20B then Err(UnknownHeader)
        else
          var directory := optional + (if magic == 0x10B then 96 else 112) + 48;
          if |data| < directory + 8 then Err(Truncated)
          else Ok(Header(U16(data, pe + 6), optional + U16(data, pe + 20), U32(data, directory), U32(data, directory + 4)))
  }

  // ---- sections and debug entries ----

  predicate Readable(data: bytes, h: Header, i: nat) {
    h.table + SECTION * i + 24 <= |data|
  }

  // The section's address range holds the debug directory.
  predicate Covers(data: bytes, h: Header, i: nat)
    requires Readable(data, h, i)
  {
    var s := h.table + SECTION * i;
    var size := if U32(data, s + 8) < U32(data, s + 16) then U32(data, s + 16) else U32(data, s + 8);
    U32(data, s + 12) <= h.debugAddress < U32(data, s + 12) + size
  }

  // Where the directory's entries start in the file, by this section.
  function Entries(data: bytes, h: Header, i: nat): nat
    requires Readable(data, h, i) && Covers(data, h, i)
  {
    U32(data, h.table + SECTION * i + 20) + h.debugAddress - U32(data, h.table + SECTION * i + 12)
  }

  predicate IsCodeView(data: bytes, offset: nat) {
    offset + 16 <= |data| && U32(data, offset + 12) == CODE_VIEW
  }

  predicate IsRsds(data: bytes, offset: nat) {
    IsCodeView(data, offset) && offset + 28 <= |data|
    && U32(data, offset + 16) >= 24 && Holds(data, U32(data, offset + 24), RSDS)
  }

  // The entry can be read and is not the one.
  predicate PassedOver(data: bytes, offset: nat) {
    offset + 16 <= |data| && (IsCodeView(data, offset) ==> offset + 28 <= |data|) && !IsRsds(data, offset)
  }

  function Record(data: bytes, offset: nat): (r: Result<Identity, Error>)
    requires IsRsds(data, offset)
    ensures r.Ok? ==> |r.value.guid| == 16
  {
    var pointer := U32(data, offset + 24);
    if pointer + 24 <= |data| then Ok(SymbolPair.Identity(data[pointer + 4..pointer + 20], U32(data, pointer + 20)))
    else Err(Truncated)
  }

  // `None` when no entry before `size` bytes have been passed is the one.
  function ScanEntries(data: bytes, start: nat, at: nat, size: nat): (r: Option<Result<Identity, Error>>)
    ensures r.Some? && r.value.Ok? ==> |r.value.value.guid| == 16
    decreases size + ENTRY - at
  {
    if at >= size then None
    else if PassedOver(data, start + at) then ScanEntries(data, start, at + ENTRY, size)
    else if IsRsds(data, start + at) then Some(Record(data, start + at))
    else Some(Err(Truncated))
  }

  function ScanSections(data: bytes, h: Header, i: nat): (r: Result<Identity, Error>)
    ensures r.Ok? ==> |r.value.guid| == 16
    decreases h.sections - i
  {
    if i >= h.sections then Err(MissingIdentity)
    else if !Readable(data, h, i) then Err(Truncated)
    else if !Covers(data, h, i) then ScanSections(data, h, i + 1)
    else
      match ScanEntries(data, Entries(data, h, i), 0, h.debugSize)
      case Some(result) => result
      case None => ScanSections(data, h, i + 1)
  }

  function Parse(data: bytes): (r: Result<Identity, Error>)
    ensures r.Ok? ==> |r.value.guid| == 16
  {
    match ReadHeader(data)
    case Err(e) => Err(e)
    case Ok(h) => ScanSections(data, h, 0)
  }

  // The inner loop, over the entries of the debug directory.
  method FindRsds(data: bytes, debug: nat, size: nat) returns (found: Option<Result<Identity, Error>>)
    ensures found == ScanEntries(data, debug, 0, size)
  {
    var at := 0;
    while at < size
      invariant ScanEntries(data, debug, 0, size) == ScanEntries(data, debug, at, size)
      decreases size + ENTRY - at
    {
      var offset := debug + at;
      if offset + 16 > |data| { return Some(Err(Truncated)); }
      if U32(data, offset + 12) == CODE_VIEW {
        if offset + 28 > |data| { return Some(Err(Truncated)); }
        var length, pointer := U32(data, offset + 16), U32(data, offset + 24);
        if length >= 24 && Holds(data, pointer, RSDS) {
          if pointer + 24 > |data| { return Some(Err(Truncated)); }
          return Some(Ok(SymbolPair.Identity(data[pointer + 4..pointer + 20], U32(data, pointer + 20))));
        }
      }
      at := at + ENTRY;
    }
    found := None;
  }

  /** `pe_identity`, with its loop over the sections. */
  method PeIdentity(data: bytes) returns (r: Result<Identity, Error>)
    ensures r == Parse(data)
  {
    hide ReadHeader, Readable, Covers, Entries, ScanEntries;
    var header := ReadHeader(data);
    if header.Err? { return Err(header.error); }
    var h := header.value;
    var index := 0;
    while index < h.sections
      invariant index <= h.sections && Parse(data) == ScanSections(data, h, index)
    {
      if !Readable(data, h, index) { return Err(Truncated); }
      if Covers(data, h, index) {
        var found := FindRsds(data, Entries(data, h, index), h.debugSize);
        if found.Some? { return found.value; }
      }
      index := index + 1;
    }
    r := Err(MissingIdentity);
  }

  // ---- what is found ----

  // Section `i` and entry `k` of the directory in it come before everything else that matches.
  ghost predicate FirstMatch(data: bytes, h: Header, i: nat, k: nat) {
    && i < h.sections && (forall j | 0 <= j <= i :: Readable(data, h, j))
    && Covers(data, h, i) && ENTRY * k < h.debugSize && IsRsds(data, Entries(data, h, i) + ENTRY * k)
    && (forall m | 0 <= m < k :: PassedOver(data, Entries(data, h, i) + ENTRY * m))
    && (forall j | 0 <= j < i :: Covers(data, h, j) ==> NoMatch(data, Entries(data, h, j), h.debugSize))
  }

  ghost predicate NoMatch(data: bytes, start: nat, size: nat) {
    forall m: nat | ENTRY * m < size :: PassedOver(data, start + ENTRY * m)
  }

  lemma {:induction false} NothingFound(data: bytes, start: nat, m: nat, size: nat)
    ensures ScanEntries(data, start, ENTRY * m, size).None? <==>
            forall n: nat | m <= n && ENTRY * n < size :: PassedOver(data, start + ENTRY * n)
    decreases size + ENTRY - ENTRY * m
  {
    if ENTRY * m < size {
      NothingFound(data, start, m + 1, size);
      assert ENTRY * (m + 1) == ENTRY * m + ENTRY;
    }
  }

  lemma {:induction false} EntryFound(data: bytes, start: nat, m: nat, k: nat, size: nat)
    requires m <= k && ENTRY * k < size && IsRsds(data, start + ENTRY * k)
    requires forall n: nat | m <= n < k :: PassedOver(data, start + ENTRY * n)
    ensures ScanEntries(data, start, ENTRY * m, size) == Some(Record(data, start + ENTRY * k))
    decreases k - m
  {
    if m < k {
      EntryFound(data, start, m + 1, k, size);
      assert ENTRY * (m + 1) == ENTRY * m + ENTRY;
    }
  }

  lemma {:induction false} SectionFound(data: bytes, h: Header, from: nat, i: nat, k: nat)
    requires FirstMatch(data, h, i, k) && from <= i
    ensures ScanSections(data, h, from) == Record(data, Entries(data, h, i) + ENTRY * k)
    decreases i - from
  {
    hide Readable, Covers, Entries, ScanEntries, PassedOver, IsRsds, U32;
    if from == i {
      EntryFound(data, Entries(data, h, i), 0, k, h.debugSize);
    } else {
      if Covers(data, h, from) { NothingFound(data, Entries(data, h, from), 0, h.debugSize); }
      SectionFound(data, h, from + 1, i, k);
    }
  }

  /** The reader returns the record of the first RSDS entry, in the order of the sections and of the
      directory in each section that covers it. */
  lemma FirstRsdsIsRead(data: bytes, i: nat, k: nat)
    requires ReadHeader(data).Ok? && FirstMatch(data, ReadHeader(data).value, i, k)
    ensures Parse(data) == Record(data, Entries(data, ReadHeader(data).value, i) + ENTRY * k)
  {
    SectionFound(data, ReadHeader(data).value, 0, i, k);
  }

  lemma {:induction false} FoundEntry(data: bytes, start: nat, m: nat, size: nat) returns (k: nat)
    requires ScanEntries(data, start, ENTRY * m, size).Some? && ScanEntries(data, start, ENTRY * m, size).value.Ok?
    ensures m <= k && ENTRY * k < size && IsRsds(data, start + ENTRY * k)
    ensures forall n: nat | m <= n < k :: PassedOver(data, start + ENTRY * n)
    decreases size + ENTRY - ENTRY * m
  {
    hide U32, Holds, Record;
    k := m;
    if PassedOver(data, start + ENTRY * m) {
      assert ENTRY * (m + 1) == ENTRY * m + ENTRY;
      k := FoundEntry(data, start, m + 1, size);
    }
  }

  lemma {:induction false} FoundSection(data: bytes, h: Header, from: nat) returns (i: nat, k: nat)
    requires ScanSections(data, h, from).Ok? && from <= h.sections
    requires forall j | 0 <= j < from :: Readable(data, h, j)
    requires forall j | 0 <= j < from :: Covers(data, h, j) ==> NoMatch(data, Entries(data, h, j), h.debugSize)
    ensures FirstMatch(data, h, i, k)
    decreases h.sections - from
  {
    hide Readable, Covers, Entries, ScanEntries, PassedOver, IsRsds, U32;
    if Covers(data, h, from) {
      NothingFound(data, Entries(data, h, from), 0, h.debugSize);
      if ScanEntries(data, Entries(data, h, from), 0, h.debugSize).Some? {
        k := FoundEntry(data, Entries(data, h, from), 0, h.debugSize);
        i := from;
        return;
      }
    }
    i, k := FoundSection(data, h, from + 1);
  }

  /** An answer is always the record of such a first entry: on no bytes is anything else returned. */
  lemma AnswersAreFirst(data: bytes)
    requires Parse(data).Ok?
    ensures ReadHeader(data).Ok?
    ensures exists i: nat, k: nat ::
              FirstMatch(data, ReadHeader(data).value, i, k)
              && Parse(data) == Record(data, Entries(data, ReadHeader(data).value, i) + ENTRY * k)
  {
    var i, k := FoundSection(data, ReadHeader(data).value, 0);
    FirstRsdsIsRead(data, i, k);
  }
}
