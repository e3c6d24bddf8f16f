/** The `PBar` application: it checks the paths, picks a stream method, and
    copies every source to standard output chunk by chunk while a progress
    bar counts bytes or lines. The tqdm bar is a counter, standard output an
    append-only sink, and each open file a cursor over its content. */
module ProgressBar {
  import opened Wrappers
  import opened Errors
  import opened Units
  import opened Chunks
  import opened Sources

  /** An open binary stream: a cursor over the bytes its source will deliver. */
  class Stream {
    const name: string
    const content: seq<byte>
    var pos: nat

    ghost predicate Valid()
      reads this
    {
      pos <= |content|
    }

    /** What later reads will deliver. */
    function Remaining(): seq<byte>
      reads this
      requires Valid()
    {
      content[pos..]
    }

    /** `open(path, mode='rb')`, or `sys.stdin.buffer`. */
    constructor Open(source: Source)
      ensures Valid() && name == source.name && content == source.content
      ensures Remaining() == source.content
    {
      name, content, pos := source.name, source.content, 0;
    }

    /** `stream.read(limit)`: the next `limit` bytes, fewer only at the end of
        the stream; empty at the end (and for a limit of 0). */
    method Read(limit: nat) returns (buff: seq<byte>)
      requires Valid()
      modifies this
      ensures Valid()
      ensures old(Remaining()) == buff + Remaining()
      ensures |buff| == if limit < |old(Remaining())| then limit else |old(Remaining())|
    {
      var n := if limit < |content| - pos then limit else |content| - pos;
      buff := content[pos..pos + n];
      assert content[pos..] == content[pos..pos + n] + content[pos + n..];
      pos := pos + n;
    }
  }

  /** `sys.stdout.buffer`: everything written, and (as a ghost log) each write. */
  class Sink {
    var written: seq<byte>
    ghost var writes: seq<seq<byte>>

    ghost predicate Valid()
      reads this
    {
      written == Flatten(writes)
    }

    constructor ()
      ensures Valid() && written == [] && writes == []
    {
      written, writes := [], [];
    }

    method Write(buff: seq<byte>)
      requires Valid()
      modifies this
      ensures Valid()
      ensures written == old(written) + buff && writes == old(writes) + [buff]
    {
      written, writes := written + buff, writes + [buff];
      assert writes[..|writes| - 1] == old(writes);
    }
  }

  /** The tqdm bar, reduced to what the program changes: the count advanced by
      `update`, the label set by `set_description`, and whether the `with`
      block has closed it. */
  class Progress {
    const total: Option<nat>
    const unit: string
    const divisor: nat
    const display: Display
    var count: nat
    var description: string
    var closed: bool

    constructor (total: Option<nat>, unit: string, divisor: nat, display: Display)
      ensures this.total == total && this.unit == unit && this.divisor == divisor
      ensures this.display == display
      ensures count == 0 && description == "" && !closed
    {
      this.total, this.unit, this.divisor, this.display := total, unit, divisor, display;
      count, description, closed := 0, "", false;
    }

    /** `progress.update(n)`: the count only ever grows, by exactly `n`. */
    method Update(n: nat)
      modifies this
      ensures count == old(count) + n
      ensures description == old(description) && closed == old(closed)
    {
      count := count + n;
    }

    /** `progress.set_description(name)`. */
    method SetDescription(name: string)
      modifies this
      ensures description == name
      ensures count == old(count) && closed == old(closed)
    {
      description := name;
    }

    /** Leaving the `with tqdm(...)` block. */
    method Close()
      modifies this
      ensures closed
      ensures count == old(count) && description == old(description)
    {
      closed := true;
    }
  }

  /** The bytes forwarded from `sources` with reads of `limit` bytes: all of
      them, except that reads of 0 bytes end every source at once. */
  function Forwarded(sources: seq<Source>, limit: nat): seq<byte>
  {
    if limit == 0 then [] else Joined(sources)
  }

  lemma ConcatAssociative<T>(a: seq<T>, b: seq<T>, c: seq<T>)
    ensures (a + b) + c == a + (b + c)
  {
  }

  /** One more chunk on the log: still within the limit, and its bytes and
      its update are added at the end. */
  lemma AppendChunk(reader: Reader, chunks: seq<seq<byte>>, buff: seq<byte>, limit: nat)
    requires ChunksWithin(chunks, limit) && 0 < |buff| <= limit
    ensures ChunksWithin(chunks + [buff], limit)
    ensures Flatten(chunks + [buff]) == Flatten(chunks) + buff
    ensures TotalAdvance(reader, chunks + [buff]) == TotalAdvance(reader, chunks) + Advance(reader, buff)
  {
    assert (chunks + [buff])[..|chunks|] == chunks;
  }

  /** The inner loop of `read_bytes` / `read_lines` together with the writes of
      `run`: read until an empty read, advance the bar by each chunk, and
      forward the chunk unchanged. The ghost result is the log of chunks. */
  method Drain(stream: Stream, limit: nat, reader: Reader, progress: Progress, out: Sink)
    returns (ghost chunks: seq<seq<byte>>)
    requires stream.Valid() && out.Valid()
    modifies stream, progress, out
    ensures stream.Valid() && out.Valid()
    ensures out.writes == old(out.writes) + chunks
    ensures ChunksWithin(chunks, limit)
    ensures Flatten(chunks) == if limit == 0 then [] else old(stream.Remaining())
    ensures limit > 0 ==> stream.Remaining() == []
    ensures limit == 0 ==> stream.Remaining() == old(stream.Remaining())
    ensures out.written == old(out.written) + Flatten(chunks)
    ensures progress.count == old(progress.count) + Advance(reader, Flatten(chunks))
    ensures progress.description == old(progress.description) && progress.closed == old(progress.closed)
  {
    ghost var data := stream.Remaining();
    chunks := [];
    while true
      invariant stream.Valid() && out.Valid()
      invariant data == Flatten(chunks) + stream.Remaining()
      invariant limit == 0 ==> chunks == []
      invariant out.writes == old(out.writes) + chunks
      invariant ChunksWithin(chunks, limit)
      invariant out.written == old(out.written) + Flatten(chunks)
      invariant progress.count == old(progress.count) + TotalAdvance(reader, chunks)
      invariant progress.description == old(progress.description) && progress.closed == old(progress.closed)
      decreases |stream.Remaining()|
    {
      var buff := stream.Read(limit);
      if buff == [] {
        break;
      }
      progress.Update(Advance(reader, buff));
      out.Write(buff);
      AppendChunk(reader, chunks, buff, limit);
      ConcatAssociative(old(out.writes), chunks, [buff]);
      ConcatAssociative(old(out.written), Flatten(chunks), buff);
      ConcatAssociative(Flatten(chunks), buff, stream.Remaining());
      chunks := chunks + [buff];
    }
    ChunkingInvariance(reader, chunks);
  }

  /** One more source drained: the log still respects the limit, and it now
      holds what the first `i + 1` sources forward. */
  lemma PumpStep(reader: Reader, sources: seq<Source>, i: nat, limit: nat,
                 chunks: seq<seq<byte>>, more: seq<seq<byte>>)
    requires i < |sources|
    requires ChunksWithin(chunks, limit) && ChunksWithin(more, limit)
    requires Flatten(chunks) == Forwarded(sources[..i], limit)
    requires Flatten(more) == if limit == 0 then [] else sources[i].content
    ensures ChunksWithin(chunks + more, limit)
    ensures Flatten(chunks + more) == Forwarded(sources[..i + 1], limit)
    ensures Flatten(chunks + more) == Flatten(chunks) + Flatten(more)
    ensures Advance(reader, Flatten(chunks + more)) == Advance(reader, Flatten(chunks)) + Advance(reader, Flatten(more))
  {
    assert sources[..i + 1][..i] == sources[..i];
    FlattenAppend(chunks, more);
    AdvanceAppend(reader, Flatten(chunks), Flatten(more));
  }

  /** The outer loop of `read_bytes` / `read_lines`: each source in turn is
      opened, named on the bar, and drained. */
  method Pump(sources: seq<Source>, limit: nat, reader: Reader, progress: Progress, out: Sink)
    returns (ghost chunks: seq<seq<byte>>)
    requires out.Valid()
    modifies progress, out
    ensures out.Valid()
    ensures out.writes == old(out.writes) + chunks
    ensures ChunksWithin(chunks, limit)
    ensures Flatten(chunks) == Forwarded(sources, limit)
    ensures out.written == old(out.written) + Forwarded(sources, limit)
    ensures progress.count == old(progress.count) + Advance(reader, Forwarded(sources, limit))
    ensures sources != [] ==> progress.description == sources[|sources| - 1].name
    ensures sources == [] ==> progress.description == old(progress.description)
    ensures progress.closed == old(progress.closed)
  {
    chunks := [];
    ghost var sent: seq<byte> := [];
    for i := 0 to |sources|
      invariant out.Valid()
      invariant out.writes == old(out.writes) + chunks
      invariant ChunksWithin(chunks, limit)
      invariant Flatten(chunks) == sent && sent == Forwarded(sources[..i], limit)
      invariant out.written == old(out.written) + sent
      invariant progress.count == old(progress.count) + Advance(reader, sent)
      invariant i > 0 ==> progress.description == sources[i - 1].name
      invariant i == 0 ==> progress.description == old(progress.description)
      invariant progress.closed == old(progress.closed)
    {
      var stream := new Stream.Open(sources[i]);
      progress.SetDescription(stream.name);
      ghost var more := Drain(stream, limit, reader, progress, out);
      PumpStep(reader, sources, i, limit, chunks, more);
      ConcatAssociative(old(out.writes), chunks, more);
      ConcatAssociative(old(out.written), sent, Flatten(more));
      chunks := chunks + more;
      sent := sent + Flatten(more);
    }
    assert sources[..|sources|] == sources;
  }

  /** What one run leaves behind: its outcome, the bytes written to standard
      output, and where the progress bar's count ends. */
  datatype Transfer = Transfer(result: Outcome<ArgError>, output: seq<byte>, count: nat)

  /** The stream method `read` selects, once the paths are checked: the total is
      estimated first (a malformed `--total` stops it), the buffer size is parsed
      at the first read (a malformed one stops it), then every source is
      forwarded and counted. Errors stop it before any byte is written. */
  function StreamTransfer(paths: seq<string>, feedMode: string, buffSize: string, total: Option<string>,
                          fs: FileSystem, stdin: seq<byte>): (r: Transfer)
    requires AllFiles(paths, fs)
    ensures r.result.Fail? ==> r.output == [] && r.count == 0 && !r.result.error.NotAFile?
    ensures r.count == Advance(SelectReader(feedMode), r.output)
  {
    var estimate := EstimateTotal(total, paths, feedMode, fs);
    if estimate.Failure? then Transfer(Fail(estimate.error), [], 0)
    else
      var size := ParseBufferSize(buffSize);
      if size.Failure? then Transfer(Fail(size.error), [], 0)
      else
        var data := Forwarded(IterStream(paths, fs, stdin), size.value);
        Transfer(Pass, data, Advance(SelectReader(feedMode), data))
  }

  /** `run`: check the paths, then stream. */
  function RunTransfer(paths: seq<string>, feedMode: string, buffSize: string, total: Option<string>,
                       fs: FileSystem, stdin: seq<byte>): (r: Transfer)
    ensures r.result.Fail? ==> r.output == [] && r.count == 0
    ensures r.count == Advance(SelectReader(feedMode), r.output)
    ensures (r.result.Fail? && r.result.error.NotAFile?) <==> !AllFiles(NormalizePaths(paths), fs)
    ensures r.result.Fail? && r.result.error.NotAFile? ==> r.result.error.path in paths && r.result.error.path !in fs
  {
    var checked := NormalizePaths(paths);
    if !AllFiles(checked, fs) then Transfer(Fail(NotAFile(checked[FirstNonFile(checked, fs)])), [], 0)
    else StreamTransfer(checked, feedMode, buffSize, total, fs, stdin)
  }

  /** The application object: its options, and `paths`, which
      `check_filepaths` overwrites. */
  class PBar {
    var paths: seq<string>
    const feedMode: string
    const buffSize: string
    const total: Option<string>

    constructor (paths: seq<string>, feedMode: string, buffSize: string, total: Option<string>)
      ensures this.paths == paths && this.feedMode == feedMode
      ensures this.buffSize == buffSize && this.total == total
    {
      this.paths, this.feedMode, this.buffSize, this.total := paths, feedMode, buffSize, total;
    }

    /** `check_filepaths`: a lone "-" becomes no paths (standard input); then
        the first path that is not a regular file is reported. */
    method CheckFilepaths(fs: FileSystem) returns (r: Outcome<ArgError>)
      modifies this
      ensures paths == NormalizePaths(old(paths))
      ensures r.Pass? <==> AllFiles(paths, fs)
      ensures r.Fail? ==> r == Fail(NotAFile(paths[FirstNonFile(paths, fs)]))
    {
      if paths == ["-"] {
        paths := [];
      }
      for i := 0 to |paths|
        invariant AllFiles(paths[..i], fs)
      {
        if paths[i] !in fs {
          r := Fail(NotAFile(paths[i]));
          assert !AllFiles(paths, fs);
          assert FirstNonFile(paths, fs) == i;
          return;
        }
      }
      assert paths[..|paths|] == paths;
      r := Pass;
    }

    /** The body of `read_bytes` / `read_lines` once the bar exists: name the
        bar after the first source, parse the buffer size at the first read
        (`buff_size_in_bytes`), forward every source, and leave the `with`
        block, which closes the bar whether or not the parse failed. */
    method Feed(sources: seq<Source>, reader: Reader, progress: Progress, out: Sink)
      returns (r: Outcome<ArgError>, ghost chunks: seq<seq<byte>>)
      requires sources != [] && out.Valid()
      modifies progress, out
      ensures out.Valid() && out.writes == old(out.writes) + chunks
      ensures progress.closed
      ensures ParseBufferSize(buffSize).Failure? ==>
        r == Fail(ParseBufferSize(buffSize).error) && chunks == [] && out.written == old(out.written)
        && progress.count == old(progress.count) && progress.description == sources[0].name
      ensures ParseBufferSize(buffSize).Success? ==>
        && r == Pass
        && progress.description == sources[|sources| - 1].name
        && ChunksWithin(chunks, ParseBufferSize(buffSize).value)
        && out.written == old(out.written) + Forwarded(sources, ParseBufferSize(buffSize).value)
        && progress.count == old(progress.count) + Advance(reader, Forwarded(sources, ParseBufferSize(buffSize).value))
    {
      progress.SetDescription(sources[0].name);
      var size := ParseBufferSize(buffSize);
      chunks := [];
      if size.Failure? {
        progress.Close();
        return Fail(size.error), chunks;
      }
      chunks := Pump(sources, size.value, reader, progress, out);
      progress.Close();
      r := Pass;
    }

    /** `self.read()`: the stream method chosen by the feed mode, consumed by
        `run`'s writes. The bar is created with the estimated total; a
        malformed total stops the run before the bar exists. */
    method Read(fs: FileSystem, stdin: seq<byte>, level: int, out: Sink)
      returns (r: Outcome<ArgError>, progress: Progress?, ghost chunks: seq<seq<byte>>)
      requires AllFiles(paths, fs) && out.Valid()
      modifies out
      ensures out.Valid()
      ensures r == StreamTransfer(paths, feedMode, buffSize, total, fs, stdin).result
      ensures out.written == old(out.written) + StreamTransfer(paths, feedMode, buffSize, total, fs, stdin).output
      ensures out.writes == old(out.writes) + chunks
      ensures r.Pass? ==> ChunksWithin(chunks, ParseBufferSize(buffSize).value)
      ensures (progress != null) <==> EstimateTotal(total, paths, feedMode, fs).Success?
      ensures progress != null ==> fresh(progress) && progress.closed
      ensures progress != null ==> progress.count == StreamTransfer(paths, feedMode, buffSize, total, fs, stdin).count
      ensures progress != null ==> progress.total == EstimateTotal(total, paths, feedMode, fs).value
      ensures progress != null ==> progress.display == ProgressDisplay(level)
      ensures progress != null ==> progress.unit == if SelectReader(feedMode) == ByteReader then "B" else "Lines"
      ensures progress != null ==> progress.divisor == if SelectReader(feedMode) == ByteReader then 1024 else 1000
    {
      var reader := SelectReader(feedMode);
      var estimate := EstimateTotal(total, paths, feedMode, fs);
      chunks := [];
      if estimate.Failure? {
        return Fail(estimate.error), null, chunks;
      }
      var unit, divisor := if reader == ByteReader then "B" else "Lines", if reader == ByteReader then 1024 else 1000;
      progress := new Progress(estimate.value, unit, divisor, ProgressDisplay(level));
      r, chunks := Feed(IterStream(paths, fs, stdin), reader, progress, out);
    }

    /** `run`: check the paths, then write every chunk the selected stream
        method yields to standard output. `level` is the logger's level. */
    method Run(fs: FileSystem, stdin: seq<byte>, level: int, out: Sink)
      returns (r: Outcome<ArgError>, progress: Progress?, ghost chunks: seq<seq<byte>>)
      requires out.Valid()
      modifies this, out
      ensures out.Valid()
      ensures paths == NormalizePaths(old(paths))
      ensures r == RunTransfer(old(paths), feedMode, buffSize, total, fs, stdin).result
      ensures out.written == old(out.written) + RunTransfer(old(paths), feedMode, buffSize, total, fs, stdin).output
      ensures out.writes == old(out.writes) + chunks
      ensures r.Pass? ==> ChunksWithin(chunks, ParseBufferSize(buffSize).value)
      ensures r.Pass? ==> progress != null && progress.display == ProgressDisplay(level)
      ensures progress != null ==> fresh(progress) && progress.closed
      ensures progress != null ==> progress.count == RunTransfer(old(paths), feedMode, buffSize, total, fs, stdin).count
      ensures (progress != null) <==>
        AllFiles(NormalizePaths(old(paths)), fs) && EstimateTotal(total, NormalizePaths(old(paths)), feedMode, fs).Success?
      ensures progress != null ==>
        && progress.total == EstimateTotal(total, NormalizePaths(old(paths)), feedMode, fs).value
        && progress.unit == (if SelectReader(feedMode) == ByteReader then "B" else "Lines")
        && progress.divisor == (if SelectReader(feedMode) == ByteReader then 1024 else 1000)
        && progress.display == ProgressDisplay(level)
    {
      r := CheckFilepaths(fs);
      chunks := [];
      progress := null;
      if r.Fail? {
        return;
      }
      r, progress, chunks := Read(fs, stdin, level, out);
    }
  }

  /** A successful run writes every source, in order, byte for byte (nothing
      at all with a buffer size of 0). */
  lemma RunWritesConcatenation(paths: seq<string>, feedMode: string, buffSize: string, total: Option<string>,
                               fs: FileSystem, stdin: seq<byte>)
    ensures var t := RunTransfer(paths, feedMode, buffSize, total, fs, stdin);
      t.result.Pass? ==>
        && AllFiles(NormalizePaths(paths), fs)
        && ParseBufferSize(buffSize).Success?
        && (ParseBufferSize(buffSize).value > 0 ==> t.output == Joined(IterStream(NormalizePaths(paths), fs, stdin)))
        && (ParseBufferSize(buffSize).value == 0 ==> t.output == [])
  {
  }

  /** In bytes mode the bar ends at the number of bytes written; when its total
      was estimated from the file sizes, it ends exactly at that total. */
  lemma BytesCountReachesTotal(paths: seq<string>, buffSize: string, total: Option<string>,
                               fs: FileSystem, stdin: seq<byte>)
    requires RunTransfer(paths, "bytes", buffSize, total, fs, stdin).result.Pass?
    ensures RunTransfer(paths, "bytes", buffSize, total, fs, stdin).count
      == |RunTransfer(paths, "bytes", buffSize, total, fs, stdin).output|
    ensures !TotalGiven(total) && NormalizePaths(paths) != [] && ParseBufferSize(buffSize).value > 0 ==>
      EstimateTotal(total, NormalizePaths(paths), "bytes", fs)
        == Success(Some(RunTransfer(paths, "bytes", buffSize, total, fs, stdin).count))
  {
    var checked := NormalizePaths(paths);
    if !TotalGiven(total) && checked != [] && ParseBufferSize(buffSize).value > 0 {
      SumSizesIsJoinedLength(checked, fs, stdin);
    }
  }

  /** In lines mode the bar ends at the number of newline bytes written, however
      the reads cut the content. */
  lemma LinesCountNewlines(paths: seq<string>, feedMode: string, buffSize: string, total: Option<string>,
                           fs: FileSystem, stdin: seq<byte>)
    requires feedMode != "bytes"
    requires RunTransfer(paths, feedMode, buffSize, total, fs, stdin).result.Pass?
    ensures RunTransfer(paths, feedMode, buffSize, total, fs, stdin).count
      == multiset(RunTransfer(paths, feedMode, buffSize, total, fs, stdin).output)[Newline]
  {
    NewlineCountIsMultiplicity(RunTransfer(paths, feedMode, buffSize, total, fs, stdin).output);
  }

  /** The first path that is not a file stops the run before anything is read:
      a later valid file is not reached, a later bad total or buffer size is
      not reported. */
  lemma MissingFileFailsFast(feedMode: string, buffSize: string, total: Option<string>,
                             fs: FileSystem, stdin: seq<byte>)
    requires "a.txt" in fs && "missing.txt" !in fs
    ensures RunTransfer(["a.txt", "missing.txt", "c.txt"], feedMode, buffSize, total, fs, stdin)
      == Transfer(Fail(NotAFile("missing.txt")), [], 0)
  {
    var paths := ["a.txt", "missing.txt", "c.txt"];
    assert NormalizePaths(paths) == paths;
    assert !AllFiles(paths, fs) by {
      assert paths[1] !in fs;
    }
    assert FirstNonFile(paths, fs) == 1 by {
      assert paths[0] in fs && paths[1] !in fs;
    }
  }

  /** A malformed total is reported before the buffer size is looked at. */
  lemma TotalErrorBeforeBufferError(paths: seq<string>, feedMode: string, buffSize: string, total: Option<string>,
                                    fs: FileSystem, stdin: seq<byte>)
    requires AllFiles(NormalizePaths(paths), fs)
    requires TotalGiven(total) && ParseTotal(total.value).Failure?
    ensures RunTransfer(paths, feedMode, buffSize, total, fs, stdin)
      == Transfer(Fail(UnrecognizedTotal(total.value)), [], 0)
  {
  }

  /** A lone "-" reads standard input, exactly as no paths do; in a longer list
      "-" is an ordinary path. */
  lemma DashMeansStdin(feedMode: string, buffSize: string, total: Option<string>,
                       fs: FileSystem, stdin: seq<byte>)
    ensures RunTransfer(["-"], feedMode, buffSize, total, fs, stdin)
      == RunTransfer([], feedMode, buffSize, total, fs, stdin)
    ensures var t := RunTransfer([], feedMode, buffSize, total, fs, stdin);
      t.result.Pass? && ParseBufferSize(buffSize).value > 0 ==> t.output == stdin
    ensures "-" !in fs ==>
      RunTransfer(["-", "-"], feedMode, buffSize, total, fs, stdin) == Transfer(Fail(NotAFile("-")), [], 0)
  {
    assert NormalizePaths(["-", "-"]) == ["-", "-"];
    assert Joined([Source(StdinName, stdin)]) == stdin by {
      assert [Source(StdinName, stdin)][..0] == [];
    }
    if "-" !in fs {
      assert !AllFiles(["-", "-"], fs) by {
        assert ["-", "-"][0] !in fs;
      }
    }
  }

  /** Counting lines of "a\nb\nc" read from standard input, in any mode but
      bytes, ends at 2. */
  lemma ThreeLinesFromStdin(buffSize: string)
    requires ParseBufferSize(buffSize).Success? && ParseBufferSize(buffSize).value > 0
    ensures RunTransfer([], "lines", buffSize, None, map[], [97, 10, 98, 10, 99]).count == 2
  {
    var data: seq<byte> := [97, 10, 98, 10, 99];
    DashMeansStdin("lines", buffSize, None, map[], data);
    ThreeLinesCountTwo();
  }
}
