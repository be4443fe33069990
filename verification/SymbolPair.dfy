/** The PDB reader of app/scripts/windows-symbol-pair.py: an MSF 7.00 file is a list of blocks, and its
    directory and streams are scattered over them. */
module SymbolPair {
  import opened Bytes
  import opened Options

  // The GUID in the order of the file, and the age.
  datatype Identity = Identity(guid: bytes, age: nat)

  // The last is the line after the loop.
  datatype Error =
    | NotMsf
    | Truncated
    | InvalidLayout
    | MultiBlockMap
    | OutsideFile
    | MissingInfoStream
    | InvalidInfoStream
    | MissingIdentity

  // "Microsoft C/C++ MSF 7.00", carriage return, line feed, 0x1a, "DS" and three zeros.
  const MAGIC: bytes := [77, 105, 99, 114, 111, 115, 111, 102, 116, 32, 67, 47, 67, 43, 43, 32,
                         77, 83, 70, 32, 55, 46, 48, 48, 13, 10, 26, 68, 83, 0, 0, 0]

  // The size of a stream that does not exist.
  const NIL := 0xFFFF_FFFF

  function BlocksFor(size: nat, blockSize: nat): (n: nat)
    requires blockSize > 0
  {
    (size + blockSize - 1) / blockSize
  }

  lemma BlocksHold(size: nat, blockSize: nat)
    requires blockSize > 0
    ensures size <= BlocksFor(size, blockSize) * blockSize < size + blockSize
  {
    var n := size + blockSize - 1;
    assert n == blockSize * (n / blockSize) + n % blockSize;
  }

  // ---- the reader as a function ----

  function Word(s: bytes, offset: nat): Result<nat, Error> {
    if offset + 4 <= |s| then Ok(U32(s, offset)) else Err(Truncated)
  }

  function Block(data: bytes, blockSize: nat, blocks: nat, index: nat): (r: Result<bytes, Error>)
    requires blocks * blockSize <= |data|
    ensures r.Ok? <==> index < blocks
    ensures r.Ok? ==> (index + 1) * blockSize <= |data| && |r.value| == blockSize
                      && r.value == data[index * blockSize..(index + 1) * blockSize]
  {
    if index >= blocks then Err(OutsideFile)
    else
      BlockInside(blockSize, blocks, index);
      Ok(data[index * blockSize..(index + 1) * blockSize])
  }

  lemma BlockInside(blockSize: nat, blocks: nat, index: nat)
    requires index < blocks
    ensures 0 <= index * blockSize <= (index + 1) * blockSize <= blocks * blockSize
    ensures (index + 1) * blockSize - index * blockSize == blockSize
  {
    assert blocks * blockSize == (index + 1) * blockSize + (blocks - index - 1) * blockSize;
  }

  // The blocks whose numbers stand one after another in `table` from `at` on, joined.
  function Gather(data: bytes, blockSize: nat, blocks: nat, table: bytes, at: nat, count: nat): (r: Result<bytes, Error>)
    requires blocks * blockSize <= |data|
    ensures r.Ok? ==> |r.value| == count * blockSize
    ensures r.Err? ==> r.error == Truncated || r.error == OutsideFile
  {
    if count == 0 then Ok([])
    else
      match Gather(data, blockSize, blocks, table, at, count - 1)
      case Err(e) => Err(e)
      case Ok(joined) =>
        match Word(table, at + 4 * (count - 1))
        case Err(e) => Err(e)
        case Ok(index) =>
          match Block(data, blockSize, blocks, index)
          case Err(e) => Err(e)
          case Ok(block) => Ok(joined + block)
  }

  datatype Header = Header(blockSize: nat, blocks: nat, directorySize: nat, blockMap: nat)

  predicate SoundHeader(data: bytes, h: Header) {
    && h.blockSize in {512, 1024, 2048, 4096} && h.blocks * h.blockSize <= |data|
    && BlocksFor(h.directorySize, h.blockSize) * 4 <= h.blockSize
  }

  function ReadHeader(data: bytes): (r: Result<Header, Error>)
    ensures r.Ok? ==> SoundHeader(data, r.value)
  {
    if |data| < 32 || data[..32] != MAGIC then Err(NotMsf)
    else if |data| < 56 then Err(Truncated)
    else
      var h := Header(U32(data, 32), U32(data, 40), U32(data, 44), U32(data, 52));
      if h.blockSize !in {512, 1024, 2048, 4096} || h.blocks * h.blockSize > |data| then Err(InvalidLayout)
      else if BlocksFor(h.directorySize, h.blockSize) * 4 > h.blockSize then Err(MultiBlockMap)
      else Ok(h)
  }

  function ReadDirectory(data: bytes, h: Header): (r: Result<bytes, Error>)
    requires SoundHeader(data, h)
    ensures r.Ok? ==> |r.value| == h.directorySize
  {
    match Block(data, h.blockSize, h.blocks, h.blockMap)
    case Err(e) => Err(e)
    case Ok(mapping) =>
      match Gather(data, h.blockSize, h.blocks, mapping, 0, BlocksFor(h.directorySize, h.blockSize))
      case Err(e) => Err(e)
      case Ok(joined) =>
        BlocksHold(h.directorySize, h.blockSize);
        Ok(joined[..h.directorySize])
  }

  function StreamBlocks(size: nat, blockSize: nat): nat
    requires blockSize > 0
  {
    if size == NIL then 0 else BlocksFor(size, blockSize)
  }

  // Stream 1, given the directory: its blocks are listed after those of stream 0.
  function ReadInfo(data: bytes, h: Header, directory: bytes): (r: Result<Identity, Error>)
    requires SoundHeader(data, h)
    ensures r.Ok? ==> |r.value.guid| == 16
  {
    if |directory| < 4 then Err(Truncated)
    else
      var streams := U32(directory, 0);
      if streams < 2 || 4 + streams * 4 > |directory| then Err(MissingInfoStream)
      else
        var size := U32(directory, 8);
        var cursor := 4 + streams * 4 + StreamBlocks(U32(directory, 4), h.blockSize) * 4;
        if size == NIL || size < 28 then Err(InvalidInfoStream)
        else
          match Gather(data, h.blockSize, h.blocks, directory, cursor, BlocksFor(size, h.blockSize))
          case Err(e) => Err(e)
          case Ok(joined) =>
            BlocksHold(size, h.blockSize);
            Ok(Identity(joined[..size][12..28], U32(joined[..size], 8)))
  }

  function Parse(data: bytes): (r: Result<Identity, Error>)
    ensures r.Ok? ==> |r.value.guid| == 16
  {
    match ReadHeader(data)
    case Err(e) => Err(e)
    case Ok(h) =>
      match ReadDirectory(data, h)
      case Err(e) => Err(e)
      case Ok(directory) => ReadInfo(data, h, directory)
  }

  // ---- the reader as it is written ----

  lemma {:induction false} FailureStays(data: bytes, blockSize: nat, blocks: nat, table: bytes, at: nat, count: nat, all: nat)
    requires blocks * blockSize <= |data| && count <= all && Gather(data, blockSize, blocks, table, at, count).Err?
    ensures Gather(data, blockSize, blocks, table, at, all) == Gather(data, blockSize, blocks, table, at, count)
  {
    if count < all { FailureStays(data, blockSize, blocks, table, at, count, all - 1); }
  }

  // The joined slices of the directory map and of the info stream.
  method Join(data: bytes, blockSize: nat, blocks: nat, table: bytes, at: nat, count: nat)
    returns (r: Result<bytes, Error>)
    requires blocks * blockSize <= |data|
    ensures r == Gather(data, blockSize, blocks, table, at, count)
  {
    var joined := [];
    var i := 0;
    while i < count
      invariant 0 <= i <= count
      invariant Gather(data, blockSize, blocks, table, at, i) == Ok(joined)
    {
      if Gather(data, blockSize, blocks, table, at, i + 1).Err? {
        FailureStays(data, blockSize, blocks, table, at, i + 1, count);
      }
      var number := Word(table, at + 4 * i);
      if number.Err? { return Err(number.error); }
      var block := Block(data, blockSize, blocks, number.value);
      if block.Err? { return Err(block.error); }
      joined := joined + block.value;
      i := i + 1;
    }
    r := Ok(joined);
  }

  /** The loop over the streams ends at stream 1: on no bytes at all does it fall through to the error
      after it. */
  method PdbIdentity(data: bytes) returns (r: Result<Identity, Error>)
    ensures r == Parse(data)
    ensures r != Err(MissingIdentity)
  {
    var header := ReadHeader(data);
    if header.Err? { return Err(header.error); }
    var h := header.value;
    var mapping := Block(data, h.blockSize, h.blocks, h.blockMap);
    if mapping.Err? { return Err(mapping.error); }
    var joined := Join(data, h.blockSize, h.blocks, mapping.value, 0, BlocksFor(h.directorySize, h.blockSize));
    if joined.Err? { return Err(joined.error); }
    BlocksHold(h.directorySize, h.blockSize);
    var directory := joined.value[..h.directorySize];
    assert ReadDirectory(data, h) == Ok(directory);
    var streams := Word(directory, 0);
    if streams.Err? { return Err(streams.error); }
    if streams.value < 2 || 4 + streams.value * 4 > |directory| { return Err(MissingInfoStream); }
    r := FindInfo(data, h, directory, streams.value);
  }

  method FindInfo(data: bytes, h: Header, directory: bytes, streams: nat) returns (r: Result<Identity, Error>)
    requires SoundHeader(data, h) && 2 <= streams && 4 + streams * 4 <= |directory| && streams == U32(directory, 0)
    ensures r == ReadInfo(data, h, directory) && r != Err(MissingIdentity)
  {
    var cursor := 4 + streams * 4;
    var index := 0;
    while index < streams
      invariant 0 <= index <= 1
      invariant cursor == 4 + streams * 4 + if index == 0 then 0 else StreamBlocks(U32(directory, 4), h.blockSize) * 4
    {
      var size := U32(directory, 4 + index * 4);
      var count := StreamBlocks(size, h.blockSize);
      if index == 1 {
        if size == NIL || size < 28 { return Err(InvalidInfoStream); }
        var joined := Join(data, h.blockSize, h.blocks, directory, cursor, count);
        if joined.Err? { return Err(joined.error); }
        BlocksHold(size, h.blockSize);
        var info := joined.value[..size];
        return Ok(Identity(info[12..28], U32(info, 8)));
      }
      cursor := cursor + count * 4;
      index := index + 1;
    }
    r := Err(MissingIdentity);
  }

  // ---- well-formed files ----

  type word = n: nat | n < WORD

  datatype Stream = Absent | Present(content: bytes, numbers: seq<word>)
  {
    function Size(): nat {
      if Absent? then 0xFFFF_FFFF else |content|
    }

    function Numbers(): seq<word> {
      if Absent? then [] else numbers
    }
  }

  // Where everything is: the blocks of the directory and of each stream may be any blocks of the file.
  datatype Layout = Layout(blockSize: nat, blocks: nat, blockMap: nat, directoryBlocks: seq<word>, streams: seq<Stream>)

  predicate Inside(numbers: seq<word>, blocks: nat) {
    forall i | 0 <= i < |numbers| :: numbers[i] < blocks
  }

  function Joined(data: bytes, blockSize: nat, blocks: nat, numbers: seq<word>): (r: bytes)
    requires blocks * blockSize <= |data| && Inside(numbers, blocks)
    ensures |r| == |numbers| * blockSize
  {
    if numbers == [] then []
    else
      var front, last := numbers[..|numbers| - 1], numbers[|numbers| - 1];
      Joined(data, blockSize, blocks, front) + Block(data, blockSize, blocks, last).value
  }

  function Encode(ws: seq<word>): (r: bytes)
    ensures |r| == 4 * |ws|
  {
    if ws == [] then [] else Encode(ws[..|ws| - 1]) + Le32(ws[|ws| - 1])
  }

  function Sizes(streams: seq<Stream>): (r: seq<word>)
    requires forall s | s in streams :: s.Size() < WORD
    ensures |r| == |streams| && forall i | 0 <= i < |streams| :: r[i] == streams[i].Size()
  {
    seq(|streams|, i requires 0 <= i < |streams| => streams[i].Size())
  }

  function AllNumbers(streams: seq<Stream>): seq<word> {
    if streams == [] then [] else streams[0].Numbers() + AllNumbers(streams[1..])
  }

  // The directory: how many streams, how long each is, and the numbers of the blocks of each in turn.
  function Directory(streams: seq<Stream>): seq<word>
    requires |streams| < WORD && forall s | s in streams :: s.Size() < WORD
  {
    [|streams|] + Sizes(streams) + AllNumbers(streams)
  }

  // `content` lies in the listed blocks, in order, and fills all but the end of the last.
  ghost predicate LiesIn(data: bytes, blockSize: nat, blocks: nat, content: bytes, numbers: seq<word>)
    requires blockSize > 0 && blocks * blockSize <= |data|
  {
    && |numbers| == BlocksFor(|content|, blockSize) && Inside(numbers, blocks)
    && |content| <= |numbers| * blockSize && Joined(data, blockSize, blocks, numbers)[..|content|] == content
  }

  // The file begins with this text.
  predicate HasMagic(data: bytes) {
    var text := "Microsoft C/C++ MSF 7.00\r\n";
    && |data| >= 32 && (forall i | 0 <= i < 26 :: data[i] as int == text[i] as int)
    && data[26] == 0x1A && data[27] as int == 'D' as int && data[28] as int == 'S' as int
    && data[29] == data[30] == data[31] == 0
  }

  lemma MagicIsRead(data: bytes)
    ensures HasMagic(data) <==> |data| >= 32 && data[..32] == MAGIC
  {
    var text := "Microsoft C/C++ MSF 7.00\r\n";
    assert forall i | 0 <= i < 26 :: MAGIC[i] as int == text[i] as int;
    if |data| >= 32 && data[..32] == MAGIC {
      forall i | 0 <= i < 32 ensures data[i] == MAGIC[i] { assert data[..32][i] == data[i]; }
    }
  }

  ghost predicate IsMsf(data: bytes, l: Layout) {
    && |data| >= 56 && HasMagic(data)
    && l.blockSize in {512, 1024, 2048, 4096} && l.blocks * l.blockSize <= |data| && l.blockMap < l.blocks
    && |l.streams| < WORD && (forall s | s in l.streams :: s.Size() < WORD)
    && U32(data, 32) == l.blockSize && U32(data, 40) == l.blocks && U32(data, 52) == l.blockMap
    && U32(data, 44) == |Encode(Directory(l.streams))|
    && |l.directoryBlocks| * 4 <= l.blockSize
    && LiesIn(data, l.blockSize, l.blocks, Encode(Directory(l.streams)), l.directoryBlocks)
    && (forall i | 0 <= i < |l.directoryBlocks| ::
          U32(Block(data, l.blockSize, l.blocks, l.blockMap).value, 4 * i) == l.directoryBlocks[i])
    && (forall s | s in l.streams :: s.Present? ==>
          |s.content| < NIL && LiesIn(data, l.blockSize, l.blocks, s.content, s.numbers))
  }

  lemma {:induction false} EncodedWord(ws: seq<word>, i: nat)
    requires i < |ws|
    ensures U32(Encode(ws), 4 * i) == ws[i]
  {
    var front := ws[..|ws| - 1];
    if i == |ws| - 1 {
      WordRoundTrip(Encode(front), ws[i], []);
      assert Encode(ws) == Encode(front) + Le32(ws[i]) + [];
    } else {
      EncodedWord(front, i);
      var s, t := Encode(ws), Encode(front);
      assert s[4 * i] == t[4 * i] && s[4 * i + 1] == t[4 * i + 1] && s[4 * i + 2] == t[4 * i + 2] && s[4 * i + 3] == t[4 * i + 3];
    }
  }

  lemma {:induction false} GatherJoins(data: bytes, blockSize: nat, blocks: nat, table: bytes, at: nat, numbers: seq<word>)
    requires blocks * blockSize <= |data| && Inside(numbers, blocks)
    requires at + 4 * |numbers| <= |table|
    requires forall i | 0 <= i < |numbers| :: U32(table, at + 4 * i) == numbers[i]
    ensures Gather(data, blockSize, blocks, table, at, |numbers|) == Ok(Joined(data, blockSize, blocks, numbers))
  {
    if numbers != [] {
      GatherJoins(data, blockSize, blocks, table, at, numbers[..|numbers| - 1]);
      assert U32(table, at + 4 * (|numbers| - 1)) == numbers[|numbers| - 1];
    }
  }

  lemma DirectoryIsRead(data: bytes, l: Layout)
    requires IsMsf(data, l)
    ensures ReadHeader(data) == Ok(Header(l.blockSize, l.blocks, |Encode(Directory(l.streams))|, l.blockMap))
    ensures ReadDirectory(data, ReadHeader(data).value) == Ok(Encode(Directory(l.streams)))
  {
    MagicIsRead(data);
    hide Encode, Directory, Joined, Gather, HasMagic;
    var mapping := Block(data, l.blockSize, l.blocks, l.blockMap).value;
    GatherJoins(data, l.blockSize, l.blocks, mapping, 0, l.directoryBlocks);
  }

  // The numbers of stream 1 follow those of stream 0.
  lemma InfoNumbers(streams: seq<Stream>, i: nat)
    requires 2 <= |streams| < WORD && forall s | s in streams :: s.Size() < WORD
    requires i < |streams[1].Numbers()|
    ensures 1 + |streams| + |streams[0].Numbers()| + i < |Directory(streams)|
    ensures Directory(streams)[1 + |streams| + |streams[0].Numbers()| + i] == streams[1].Numbers()[i]
  {
    assert AllNumbers(streams) == streams[0].Numbers() + (streams[1].Numbers() + AllNumbers(streams[1..][1..]));
  }

  lemma InfoIsGathered(data: bytes, l: Layout)
    requires IsMsf(data, l) && 2 <= |l.streams| && l.streams[1].Present?
    ensures var at := 4 + |l.streams| * 4 + |l.streams[0].Numbers()| * 4;
            Gather(data, l.blockSize, l.blocks, Encode(Directory(l.streams)), at, |l.streams[1].numbers|)
            == Ok(Joined(data, l.blockSize, l.blocks, l.streams[1].numbers))
  {
    hide Encode, Directory, Joined, Gather;
    var streams, directory := l.streams, Encode(Directory(l.streams));
    var numbers, at := streams[1].numbers, 4 + |streams| * 4 + |streams[0].Numbers()| * 4;
    assert streams[1] in l.streams;
    forall i | 0 <= i < |numbers|
      ensures at + 4 * i + 4 <= |directory| && U32(directory, at + 4 * i) == numbers[i]
    {
      InfoNumbers(streams, i);
      EncodedWord(Directory(streams), 1 + |streams| + |streams[0].Numbers()| + i);
    }
    if numbers != [] { InfoNumbers(streams, |numbers| - 1); } else { DirectoryLength(streams); }
    GatherJoins(data, l.blockSize, l.blocks, directory, at, numbers);
  }

  lemma DirectoryLength(streams: seq<Stream>)
    requires 2 <= |streams| < WORD && forall s | s in streams :: s.Size() < WORD
    ensures 1 + |streams| + |streams[0].Numbers()| <= |Directory(streams)|
    ensures Directory(streams)[0] == |streams| && Directory(streams)[1] == streams[0].Size()
    ensures Directory(streams)[2] == streams[1].Size()
  {}

  /** For every MSF 7.00 file whose directory map fits one block, whatever blocks the directory and the
      streams occupy and whatever stream 0 is, the reader returns the GUID bytes and the age of stream 1,
      and it refuses the file exactly when stream 1 is missing or shorter than the two fields. */
  lemma StreamOneIsRead(data: bytes, l: Layout)
    requires IsMsf(data, l)
    ensures 2 <= |l.streams| && l.streams[1].Present? && |l.streams[1].content| >= 28 ==>
              Parse(data) == Ok(Identity(l.streams[1].content[12..28], U32(l.streams[1].content, 8)))
    ensures |l.streams| < 2 ==> Parse(data) == Err(MissingInfoStream)
    ensures 2 <= |l.streams| && (l.streams[1].Absent? || |l.streams[1].content| < 28) ==> Parse(data) == Err(InvalidInfoStream)
  {
    hide Encode, Joined, Gather, LiesIn;
    DirectoryIsRead(data, l);
    var directory := Encode(Directory(l.streams));
    EncodedWord(Directory(l.streams), 0);
    assert Directory(l.streams)[0] == |l.streams|;
    if 2 <= |l.streams| {
      DirectoryLength(l.streams);
      EncodedWord(Directory(l.streams), 1);
      EncodedWord(Directory(l.streams), 2);
      StreamZeroTakes(data, l);
      if l.streams[1].Present? && |l.streams[1].content| >= 28 {
        InfoIsGathered(data, l);
        InfoLies(data, l);
      }
    }
  }

  lemma StreamZeroTakes(data: bytes, l: Layout)
    requires IsMsf(data, l) && 2 <= |l.streams|
    ensures StreamBlocks(l.streams[0].Size(), l.blockSize) == |l.streams[0].Numbers()|
  {
    assert l.streams[0] in l.streams;
  }

  lemma InfoLies(data: bytes, l: Layout)
    requires IsMsf(data, l) && 2 <= |l.streams| && l.streams[1].Present?
    ensures LiesIn(data, l.blockSize, l.blocks, l.streams[1].content, l.streams[1].numbers) && |l.streams[1].content| < NIL
    ensures |l.streams[1].numbers| == BlocksFor(|l.streams[1].content|, l.blockSize)
    ensures Joined(data, l.blockSize, l.blocks, l.streams[1].numbers)[..|l.streams[1].content|] == l.streams[1].content
  {
    assert l.streams[1] in l.streams;
  }

  // The header's sizes are those of a file of whole blocks.
  predicate SoundSizes(data: bytes)
    requires |data| >= 56
  {
    U32(data, 32) in {512, 1024, 2048, 4096} && U32(data, 40) * U32(data, 32) <= |data|
  }

  /** Whatever the bytes, the errors of the header say what is wrong with it: the magic, the block size and
      count, or a directory that needs more block numbers than one block holds. */
  lemma HeaderErrors(data: bytes)
    ensures Parse(data) == Err(NotMsf) <==> !HasMagic(data)
    ensures Parse(data) == Err(InvalidLayout) <==> HasMagic(data) && |data| >= 56 && !SoundSizes(data)
    ensures Parse(data) == Err(MultiBlockMap) <==>
            && HasMagic(data) && |data| >= 56 && SoundSizes(data)
            && exists n: nat :: 4 * (n + 1) > U32(data, 32) && n * U32(data, 32) < U32(data, 44)
  {
    MagicIsRead(data);
    hide HasMagic, Gather, U32;
    if |data| >= 56 && SoundSizes(data) {
      BlocksHold(U32(data, 44), U32(data, 32));
      ManyBlocks(U32(data, 44), U32(data, 32));
    }
  }

  lemma ManyBlocks(size: nat, blockSize: nat)
    requires blockSize > 0
    ensures BlocksFor(size, blockSize) * 4 > blockSize <==> exists n: nat :: 4 * (n + 1) > blockSize && n * blockSize < size
  {
    BlocksHold(size, blockSize);
    var blocks := BlocksFor(size, blockSize);
    if blocks * 4 > blockSize {
      var n := blocks - 1;
      assert n * blockSize == blocks * blockSize - blockSize < size;
      assert 4 * (n + 1) > blockSize && n * blockSize < size;
    }
    if n: nat :| 4 * (n + 1) > blockSize && n * blockSize < size {
      Monotone(blocks, n, blockSize);
    }
  }

  lemma Monotone(a: nat, b: nat, c: nat)
    ensures a <= b ==> a * c <= b * c
  {
    if a <= b { assert b * c == a * c + (b - a) * c; }
  }

  // ---- arbitrary bytes ----

  // The block numbers that a table lists.
  function Listed(table: bytes, at: nat, count: nat): seq<word>
    requires at + 4 * count <= |table|
  {
    seq(count, i requires 0 <= i < count => U32(table, at + 4 * i))
  }

  lemma {:induction false} GatheredAreInside(data: bytes, blockSize: nat, blocks: nat, table: bytes, at: nat, count: nat)
    requires blocks * blockSize <= |data| && Gather(data, blockSize, blocks, table, at, count).Ok?
    ensures count > 0 ==> at + 4 * count <= |table|
    ensures forall i | 0 <= i < count :: at + 4 * i + 4 <= |table| && U32(table, at + 4 * i) < blocks
  {
    if count > 0 { GatheredAreInside(data, blockSize, blocks, table, at, count - 1); }
  }

  // The table lists `count` numbers from `at` on, all of blocks that lie wholly inside the file.
  predicate ListsInside(data: bytes, h: Header, table: bytes, at: nat, count: nat) {
    && h.blocks * h.blockSize <= |data|
    && forall i | 0 <= i < count :: at + 4 * i + 4 <= |table| && U32(table, at + 4 * i) < h.blocks
  }

  function InfoCursor(directory: bytes, h: Header): nat
    requires h.blockSize > 0 && |directory| >= 8
  {
    4 + U32(directory, 0) * 4 + StreamBlocks(U32(directory, 4), h.blockSize) * 4
  }

  lemma DirectoryComesFromInside(data: bytes, h: Header)
    requires SoundHeader(data, h) && ReadDirectory(data, h).Ok?
    ensures h.blockMap < h.blocks
    ensures ListsInside(data, h, Block(data, h.blockSize, h.blocks, h.blockMap).value, 0, BlocksFor(h.directorySize, h.blockSize))
  {
    hide Gather;
    var mapping := Block(data, h.blockSize, h.blocks, h.blockMap).value;
    GatheredAreInside(data, h.blockSize, h.blocks, mapping, 0, BlocksFor(h.directorySize, h.blockSize));
  }

  lemma InfoComesFromInside(data: bytes, h: Header, directory: bytes)
    requires SoundHeader(data, h) && ReadInfo(data, h, directory).Ok?
    ensures |directory| >= 12
    ensures ListsInside(data, h, directory, InfoCursor(directory, h), BlocksFor(U32(directory, 8), h.blockSize))
  {
    hide Gather;
    GatheredAreInside(data, h.blockSize, h.blocks, directory, InfoCursor(directory, h),
                      BlocksFor(U32(directory, 8), h.blockSize));
  }

  /** On arbitrary bytes an answer comes only from blocks that lie wholly inside the file: the block map, the
      directory's blocks and the info stream's blocks. */
  lemma AnswersComeFromInside(data: bytes)
    requires Parse(data).Ok?
    ensures ReadHeader(data).Ok?
    ensures var h := ReadHeader(data).value;
            && h.blockMap < h.blocks
            && ListsInside(data, h, Block(data, h.blockSize, h.blocks, h.blockMap).value, 0,
                           BlocksFor(h.directorySize, h.blockSize))
            && ReadDirectory(data, h).Ok? && |ReadDirectory(data, h).value| >= 12
            && var directory := ReadDirectory(data, h).value;
               ListsInside(data, h, directory, InfoCursor(directory, h), BlocksFor(U32(directory, 8), h.blockSize))
  {
    hide ReadHeader, ReadDirectory, ReadInfo, ListsInside;
    var h := ReadHeader(data).value;
    DirectoryComesFromInside(data, h);
    InfoComesFromInside(data, h, ReadDirectory(data, h).value);
  }
}
