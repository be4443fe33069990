/** The bounded copy of ios/App/StyleArchiveImport.swift. What the system does is a finite script of reads
    and of writes: short, interrupted or failing ones, in any order. */
module ArchiveCopy {
  import opened Bytes
  import opened Options

  const MAXIMUM_BYTES := 512 * 1024
  const BUFFER := 16 * 1024

  // `Cancelled` is the check before a read. A read gives at most what was asked for: the rest of a longer
  // `Got` comes with the next read. A script that is over stands at the end of the file.
  datatype Read = Got(data: bytes) | ReadInterrupted | ReadFailed | Cancelled | EndOfFile

  // How many bytes a write would take; it takes at most what is offered. A script that is over takes all.
  datatype Write = Took(size: nat) | WriteInterrupted | WriteRefused

  datatype Failure =
    | Unsupported
    | Oversized
    | InvalidStaging
    | Unreadable
    | WriteFailed
    | CleanupFailed
    | CancellationError

  // The answers of the system outside the loop.
  datatype Request = Request(
    isFile: bool, isZip: bool, policyIsZip: bool, maxCompressedBytes: int, absoluteStaging: bool,
    opens: bool, regular: bool, size: nat, directoryOpens: bool, creates: bool, syncs: bool,
    unlinks: bool, alreadyGone: bool)

  function Min(a: int, b: int): int {
    if a < b then a else b
  }

  // ---- the loop as a function ----

  function Weight(input: seq<Read>): nat {
    if input == [] then 0 else 1 + (if input[0].Got? then |input[0].data| else 0) + Weight(input[1..])
  }

  function Next(input: seq<Read>, request: nat): (r: (Read, seq<Read>))
    requires request > 0
    ensures r.0.Got? ==> 0 < |r.0.data| <= request
    ensures r.0.Got? || r.0.ReadInterrupted? ==> Weight(r.1) < Weight(input)
  {
    if input == [] then (EndOfFile, [])
    else
      match input[0]
      case Got(data) =>
        if data == [] then (EndOfFile, input[1..])
        else if |data| <= request then (Got(data), input[1..])
        else
          var later := [Got(data[request..])] + input[1..];
          assert later[1..] == input[1..];
          (Got(data[..request]), later)
      case other => (other, input[1..])
  }

  // Writing `count` bytes: whether all were taken, how many were, and the script that is left.
  datatype Written = Written(ok: bool, taken: nat, later: seq<Write>)

  function WriteOut(output: seq<Write>, count: nat): (r: Written)
    ensures r.taken <= count && (r.ok <==> r.taken == count)
    decreases |output|
  {
    if count == 0 then Written(true, 0, output)
    else if output == [] then Written(true, count, [])
    else
      match output[0]
      case WriteInterrupted => WriteOut(output[1..], count)
      case WriteRefused => Written(false, 0, output[1..])
      case Took(size) =>
        if size == 0 then Written(false, 0, output[1..])
        else
          var n := Min(size, count);
          var rest := WriteOut(output[1..], count - n);
          rest.(taken := n + rest.taken)
  }

  // `obtained` is all the source gave, `file` what the staged file holds.
  datatype Copied = Copied(obtained: bytes, file: bytes, failure: Option<Failure>)

  function Copy(input: seq<Read>, output: seq<Write>, limit: nat, obtained: bytes, file: bytes): Copied
    requires |obtained| <= limit
    decreases Weight(input)
  {
    var (read, later) := Next(input, Min(BUFFER, limit - |obtained| + 1));
    match read
    case Cancelled => Copied(obtained, file, Some(CancellationError))
    case EndOfFile => Copied(obtained, file, None)
    case ReadInterrupted => Copy(later, output, limit, obtained, file)
    case ReadFailed => Copied(obtained, file, Some(Unreadable))
    case Got(data) =>
      if |obtained + data| > limit then Copied(obtained + data, file, Some(Oversized))
      else
        var w := WriteOut(output, |data|);
        if w.ok then Copy(later, w.later, limit, obtained + data, file + data)
        else Copied(obtained + data, file + data[..w.taken], Some(WriteFailed))
  }

  // ---- what the loop guarantees ----

  // All the source gives up to the end of the file; nothing after a failure or a cancellation.
  function Yielded(input: seq<Read>): bytes {
    if input == [] then []
    else
      match input[0]
      case Got(data) => if data == [] then [] else data + Yielded(input[1..])
      case ReadInterrupted => Yielded(input[1..])
      case _ => []
  }

  // The end of the file comes before any failure or cancellation.
  predicate ReachesEnd(input: seq<Read>) {
    input == []
    || match input[0]
       case Got(data) => data == [] || ReachesEnd(input[1..])
       case ReadInterrupted => ReachesEnd(input[1..])
       case EndOfFile => true
       case _ => false
  }

  lemma SplitYields(data: bytes, request: nat, rest: seq<Read>)
    requires request < |data|
    ensures var later := [Got(data[request..])] + rest;
            data + Yielded(rest) == data[..request] + Yielded(later) && (ReachesEnd(later) <==> ReachesEnd(rest))
  {
    var later := [Got(data[request..])] + rest;
    assert later[0] == Got(data[request..]) && later[1..] == rest;
    assert Yielded(later) == data[request..] + Yielded(rest);
    hide Yielded, ReachesEnd;
    assert data[..request] + data[request..] == data;
    Reassociate(data[..request], data[request..], Yielded(rest));
  }

  lemma Reassociate(a: bytes, b: bytes, c: bytes)
    ensures a + (b + c) == (a + b) + c
  {}

  lemma NextYields(input: seq<Read>, request: nat)
    requires request > 0
    ensures var (read, later) := Next(input, request);
            && (read.Got? ==> Yielded(input) == read.data + Yielded(later) && (ReachesEnd(input) <==> ReachesEnd(later)))
            && (read.ReadInterrupted? ==> Yielded(input) == Yielded(later) && (ReachesEnd(input) <==> ReachesEnd(later)))
            && (read.EndOfFile? ==> Yielded(input) == [] && ReachesEnd(input))
            && (read.ReadFailed? || read.Cancelled? ==> !ReachesEnd(input))
  {
    if input != [] && input[0].Got? && |input[0].data| > request { SplitYields(input[0].data, request, input[1..]); }
  }

  /** Success means that the source was read to its end and that the staged file equals all it gave, byte
      for byte, within the limit; and never is more than one byte beyond the limit obtained. */
  lemma {:induction false} CopyIsFaithful(input: seq<Read>, output: seq<Write>, limit: nat, obtained: bytes)
    requires |obtained| <= limit
    ensures var c := Copy(input, output, limit, obtained, obtained);
            && |c.obtained| <= limit + 1 && obtained <= c.obtained && c.file <= c.obtained
            && (c.failure.None? ==>
                  ReachesEnd(input) && c.obtained == obtained + Yielded(input) && c.file == c.obtained && |c.file| <= limit)
    decreases Weight(input)
  {
    var request := Min(BUFFER, limit - |obtained| + 1);
    var (read, later) := Next(input, request);
    NextYields(input, request);
    if read.ReadInterrupted? {
      CopyIsFaithful(later, output, limit, obtained);
    } else if read.Got? {
      var w := WriteOut(output, |read.data|);
      if |obtained + read.data| <= limit && w.ok {
        CopyIsFaithful(later, w.later, limit, obtained + read.data);
        assert (obtained + read.data) + Yielded(later) == obtained + (read.data + Yielded(later));
      }
    } else if read.EndOfFile? {
      assert obtained + [] == obtained;
    }
  }

  predicate Healthy(output: seq<Write>) {
    forall i | 0 <= i < |output| :: output[i] != WriteRefused && output[i] != Took(0)
  }

  lemma {:induction false} HealthyWritesSucceed(output: seq<Write>, count: nat)
    requires Healthy(output)
    ensures WriteOut(output, count).ok && Healthy(WriteOut(output, count).later)
    decreases |output|
  {
    if count > 0 && output != [] {
      assert output[0] != WriteRefused && output[0] != Took(0);
      match output[0]
      case WriteInterrupted => HealthyWritesSucceed(output[1..], count);
      case Took(size) => HealthyWritesSucceed(output[1..], count - Min(size, count));
    }
  }

  /** However short or interrupted the reads and writes are: when no write fails, the copy succeeds exactly
      when the source can be read to its end and gives at most `limit` bytes. */
  lemma {:induction false} CopySucceedsIff(input: seq<Read>, output: seq<Write>, limit: nat, obtained: bytes, file: bytes)
    requires |obtained| <= limit && Healthy(output)
    ensures Copy(input, output, limit, obtained, file).failure.None?
            <==> ReachesEnd(input) && |obtained| + |Yielded(input)| <= limit
    decreases Weight(input)
  {
    var request := Min(BUFFER, limit - |obtained| + 1);
    var (read, later) := Next(input, request);
    NextYields(input, request);
    if read.ReadInterrupted? {
      CopySucceedsIff(later, output, limit, obtained, file);
    } else if read.Got? {
      HealthyWritesSucceed(output, |read.data|);
      var w := WriteOut(output, |read.data|);
      if |obtained + read.data| <= limit {
        CopySucceedsIff(later, w.later, limit, obtained + read.data, file + read.data);
      }
    }
  }

  // What stops the source from giving all it has within `left` bytes, and is met first.
  function Stops(input: seq<Read>, left: nat): Option<Failure> {
    if input == [] then None
    else
      match input[0]
      case Got(data) =>
        if data == [] then None else if |data| > left then Some(Oversized) else Stops(input[1..], left - |data|)
      case ReadInterrupted => Stops(input[1..], left)
      case ReadFailed => Some(Unreadable)
      case Cancelled => Some(CancellationError)
      case EndOfFile => None
  }

  lemma NextStops(input: seq<Read>, request: nat, left: nat)
    requires 0 < request <= left + 1
    ensures var (read, later) := Next(input, request);
            && (read.Got? ==> Stops(input, left) == if |read.data| > left then Some(Oversized)
                                                    else Stops(later, left - |read.data|))
            && (read.ReadInterrupted? ==> Stops(input, left) == Stops(later, left))
            && (read.EndOfFile? ==> Stops(input, left) == None)
            && (read.ReadFailed? ==> Stops(input, left) == Some(Unreadable))
            && (read.Cancelled? ==> Stops(input, left) == Some(CancellationError))
  {
    if input != [] && input[0].Got? && |input[0].data| > request {
      var rest := [Got(input[0].data[request..])] + input[1..];
      assert rest[1..] == input[1..] && rest[0] == Got(input[0].data[request..]);
    }
  }

  /** When no write fails, the copy ends as the source first does: for being too long, for a failed read or a
      cancellation, or with success at the end of the file. */
  lemma {:induction false} CopyEndsAsSource(input: seq<Read>, output: seq<Write>, limit: nat, obtained: bytes, file: bytes)
    requires |obtained| <= limit && Healthy(output)
    ensures Copy(input, output, limit, obtained, file).failure == Stops(input, limit - |obtained|)
    decreases Weight(input)
  {
    var request := Min(BUFFER, limit - |obtained| + 1);
    var (read, later) := Next(input, request);
    NextStops(input, request, limit - |obtained|);
    if read.ReadInterrupted? {
      CopyEndsAsSource(later, output, limit, obtained, file);
    } else if read.Got? {
      HealthyWritesSucceed(output, |read.data|);
      var w := WriteOut(output, |read.data|);
      if |obtained + read.data| <= limit {
        CopyEndsAsSource(later, w.later, limit, obtained + read.data, file + read.data);
      }
    }
  }

  // ---- the whole operation ----

  // The staged file afterwards, if there is one, and how the operation ended.
  datatype Outcome = Outcome(file: Option<bytes>, failure: Option<Failure>)

  function Limit(q: Request): int {
    Min(MAXIMUM_BYTES, q.maxCompressedBytes)
  }

  // The checks before the staged file exists.
  function Refusal(q: Request): (r: Option<Failure>)
    ensures r.None? ==> Limit(q) > 0
  {
    if !q.isFile || !q.isZip || !q.policyIsZip then Some(Unsupported)
    else if q.maxCompressedBytes <= 0 || !q.absoluteStaging then Some(InvalidStaging)
    else if !q.opens || !q.regular then Some(Unreadable)
    else if q.size > Limit(q) then Some(Oversized)
    else if !q.directoryOpens then Some(InvalidStaging)
    else if !q.creates then Some(WriteFailed)
    else None
  }

  // After a failure inside the copy the file is unlinked.
  function CleanUp(q: Request, file: bytes, failure: Failure): Outcome {
    if q.unlinks || q.alreadyGone then Outcome(None, Some(failure)) else Outcome(Some(file), Some(CleanupFailed))
  }

  function Stage(q: Request, input: seq<Read>, output: seq<Write>): Outcome {
    var refusal := Refusal(q);
    if refusal.Some? then Outcome(None, refusal)
    else
      var c := Copy(input, output, Limit(q), [], []);
      if c.failure.Some? then CleanUp(q, c.file, c.failure.value)
      else if !q.syncs then CleanUp(q, c.file, WriteFailed)
      else Outcome(Some(c.file), None)
  }

  /** `stage` succeeds only with a staged file equal to all the source gave to the end of file, of at most
      512 KiB and at most what the policy allows; every failure leaves no staged file or says that the
      clean-up failed, and a clean-up fails exactly when a started copy failed and its file stayed. */
  lemma StagingIsFaithful(q: Request, input: seq<Read>, output: seq<Write>)
    ensures var o := Stage(q, input, output);
            && (o.failure.None? ==>
                  && o.file == Some(Yielded(input)) && ReachesEnd(input)
                  && |Yielded(input)| <= MAXIMUM_BYTES && |Yielded(input)| <= q.maxCompressedBytes)
            && (o.failure.Some? ==> (o.file.Some? <==> o.failure == Some(CleanupFailed)))
            && (o.failure == Some(CleanupFailed) ==>
                  Refusal(q).None? && !q.unlinks && !q.alreadyGone
                  && (Copy(input, output, Limit(q), [], []).failure.Some? || !q.syncs))
    ensures Refusal(q).None? ==> |Copy(input, output, Limit(q), [], []).obtained| <= Limit(q) + 1
  {
    if Refusal(q).None? {
      CopyIsFaithful(input, output, Limit(q), []);
      CopyNeverCleans(input, output, Limit(q), [], []);
      assert [] + Yielded(input) == Yielded(input);
    }
  }

  // The source is a ZIP file, and the policy and its directory are usable.
  predicate Asked(q: Request) {
    q.isFile && q.isZip && q.policyIsZip && q.maxCompressedBytes > 0 && q.absoluteStaging
  }

  // Its length is within both bounds.
  predicate WithinBounds(q: Request, size: nat) {
    size <= 512 * 1024 && size <= q.maxCompressedBytes
  }

  // The staged file has been created.
  predicate Started(q: Request) {
    Asked(q) && q.opens && q.regular && WithinBounds(q, q.size) && q.directoryOpens && q.creates
  }

  /** When no write fails, `stage` succeeds exactly for a readable regular ZIP file within both bounds, in size
      and in what it gives, with a usable directory in which the file can be created and flushed; and every
      way to fail is told apart by what failed first. */
  lemma StagingEndsIff(q: Request, input: seq<Read>, output: seq<Write>)
    requires Healthy(output)
    ensures var failure := Stage(q, input, output).failure;
            var readable := Asked(q) && q.opens && q.regular;
            var limit := if q.maxCompressedBytes < 512 * 1024 then q.maxCompressedBytes else 512 * 1024;
            var stops := if limit < 0 then None else Stops(input, limit);
            var cleaned := q.unlinks || q.alreadyGone;
            && (failure.None? <==> Started(q) && stops.None? && q.syncs)
            && (failure == Some(Unsupported) <==> !q.isFile || !q.isZip || !q.policyIsZip)
            && (failure == Some(InvalidStaging) <==>
                  q.isFile && q.isZip && q.policyIsZip
                  && (q.maxCompressedBytes <= 0 || !q.absoluteStaging
                      || (readable && WithinBounds(q, q.size) && !q.directoryOpens)))
            && (failure == Some(Unreadable) <==>
                  (Asked(q) && !readable) || (Started(q) && stops == Some(Unreadable) && cleaned))
            && (failure == Some(Oversized) <==>
                  (readable && !WithinBounds(q, q.size)) || (Started(q) && stops == Some(Oversized) && cleaned))
            && (failure == Some(WriteFailed) <==>
                  (readable && WithinBounds(q, q.size) && q.directoryOpens && !q.creates)
                  || (Started(q) && stops.None? && !q.syncs && cleaned))
            && (failure == Some(CancellationError) <==> Started(q) && stops == Some(CancellationError) && cleaned)
            && (failure == Some(CleanupFailed) <==> Started(q) && (stops.Some? || !q.syncs) && !cleaned)
  {
    if Started(q) {
      CopyEndsAsSource(input, output, Limit(q), [], []);
      StopsAreNamed(input, Limit(q));
    }
    hide Copy;
  }

  lemma {:induction false} StopsAreNamed(input: seq<Read>, left: nat)
    ensures Stops(input, left) in {None, Some(Oversized), Some(Unreadable), Some(CancellationError)}
  {
    if input != [] {
      if input[0].Got? && |input[0].data| <= left { StopsAreNamed(input[1..], left - |input[0].data|); }
      if input[0].ReadInterrupted? { StopsAreNamed(input[1..], left); }
    }
  }

  lemma {:induction false} CopyNeverCleans(input: seq<Read>, output: seq<Write>, limit: nat, obtained: bytes, file: bytes)
    requires |obtained| <= limit
    ensures Copy(input, output, limit, obtained, file).failure != Some(CleanupFailed)
    decreases Weight(input)
  {
    var (read, later) := Next(input, Min(BUFFER, limit - |obtained| + 1));
    if read.ReadInterrupted? {
      CopyNeverCleans(later, output, limit, obtained, file);
    } else if read.Got? && |obtained + read.data| <= limit && WriteOut(output, |read.data|).ok {
      CopyNeverCleans(later, WriteOut(output, |read.data|).later, limit, obtained + read.data, file + read.data);
    }
  }

  // ---- the operation as it is written ----

  // The inner loop: offers what is left of the buffer's first `count` bytes until all are taken.
  method WriteBuffer(buffer: array<byte>, count: nat, output: seq<Write>, file: bytes)
    returns (ok: bool, later: seq<Write>, longer: bytes)
    requires count <= buffer.Length
    ensures var w := WriteOut(output, count);
            ok == w.ok && later == w.later && longer == file + buffer[..count][..w.taken]
  {
    var written := 0;
    later, longer := output, file;
    ghost var all := WriteOut(output, count);
    assert buffer[..count][..0] == [] && file + [] == file;
    while written < count
      invariant 0 <= written <= count
      invariant longer == file + buffer[..count][..written]
      invariant all == var w := WriteOut(later, count - written); w.(taken := written + w.taken)
      decreases |later|, count - written
    {
      var size := count - written;
      if later != [] {
        var write := later[0];
        later := later[1..];
        if write.WriteInterrupted? { continue; }
        if write.WriteRefused? || write.size == 0 { return false, later, longer; }
        size := Min(write.size, size);
      }
      longer := longer + buffer[written..written + size];
      assert buffer[..count][..written + size] == buffer[..count][..written] + buffer[written..written + size];
      written := written + size;
    }
    ok := true;
  }

  /** The outer loop with its buffer, between the checks before it and the clean-up after it. */
  method StageArchive(q: Request, input: seq<Read>, output: seq<Write>) returns (o: Outcome)
    ensures o == Stage(q, input, output)
  {
    var refusal := Refusal(q);
    if refusal.Some? { return Outcome(None, refusal); }
    var limit := Limit(q);
    var buffer := new byte[BUFFER](_ => 0);
    var total, file: bytes, failure: Option<Failure> := 0, [], None;
    var left, later := input, output;
    ghost var obtained: bytes := [];
    ghost var copied := Copy(input, output, limit, [], []);
    while true
      invariant failure.None? && |obtained| == total <= limit && fresh(buffer) && buffer.Length == BUFFER
      invariant copied == Copy(left, later, limit, obtained, file)
      decreases Weight(left)
    {
      var (read, rest) := Next(left, Min(buffer.Length, limit - total + 1));
      if read.Cancelled? { failure := Some(CancellationError); break; }
      if read.EndOfFile? { break; }
      left := rest;
      if read.ReadInterrupted? { continue; }
      if read.ReadFailed? { failure := Some(Unreadable); break; }
      var count := |read.data|;
      forall k | 0 <= k < count { buffer[k] := read.data[k]; }
      assert buffer[..count] == read.data;
      total := total + count;
      obtained := obtained + read.data;
      if total > limit { failure := Some(Oversized); break; }
      var ok;
      ok, later, file := WriteBuffer(buffer, count, later, file);
      if !ok { failure := Some(WriteFailed); break; }
      assert read.data[..count] == read.data;
    }
    assert copied.file == file && copied.failure == failure;
    if failure.None? && !q.syncs { failure := Some(WriteFailed); }
    if failure.None? { return Outcome(Some(file), None); }
    if !q.unlinks && !q.alreadyGone { return Outcome(Some(file), Some(CleanupFailed)); }
    o := Outcome(None, failure);
  }
}
