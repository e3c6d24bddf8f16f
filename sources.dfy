/** The decision rules of `PBar` around the stream: which sources are read
    (`check_filepaths`, `iter_stream`), what the progress bar's total is
    (`get_total`), which stream method runs (`read`) and where the bar is
    drawn (`pb_stream`). */
module Sources {
  import opened Wrappers
  import opened Errors
  import opened Units
  import opened Chunks

  /** The regular files and their contents. A path that is not a key is
      missing or not a regular file: `os.path.isfile` is false for it, and
      `os.path.getsize` of a key is the length of its content. */
  type FileSystem = map<string, seq<byte>>

  /** An open stream: its `name` attribute and everything it will deliver. */
  datatype Source = Source(name: string, content: seq<byte>)

  /** The name of `sys.stdin.buffer`. */
  const StdinName: string := "<stdin>"

  /** The first step of `check_filepaths`: a lone "-" stands for standard
      input, which is no paths at all. */
  function NormalizePaths(paths: seq<string>): (r: seq<string>)
    ensures r == [] <==> paths == [] || paths == ["-"]
    ensures r != [] ==> r == paths
  {
    if paths == ["-"] then [] else paths
  }

  /** Every path names a regular file. */
  predicate AllFiles(paths: seq<string>, fs: FileSystem)
  {
    forall i :: 0 <= i < |paths| ==> paths[i] in fs
  }

  /** Where `check_filepaths` stops: the first path that is not a regular file. */
  function FirstNonFile(paths: seq<string>, fs: FileSystem): (i: nat)
    requires !AllFiles(paths, fs)
    ensures i < |paths| && paths[i] !in fs && AllFiles(paths[..i], fs)
  {
    if paths[0] !in fs then 0
    else
      var j := FirstNonFile(paths[1..], fs);
      assert paths[..j + 1] == [paths[0]] + paths[1..][..j];
      j + 1
  }

  /** The streams `iter_stream` opens, in order. */
  function IterStream(paths: seq<string>, fs: FileSystem, stdin: seq<byte>): (r: seq<Source>)
    requires AllFiles(paths, fs)
    ensures |r| >= 1
    ensures paths == [] ==> r == [Source(StdinName, stdin)]
    ensures paths != [] ==> |r| == |paths| && forall i :: 0 <= i < |r| ==> r[i] == Source(paths[i], fs[paths[i]])
  {
    if paths == [] then [Source(StdinName, stdin)]
    else seq(|paths|, i requires 0 <= i < |paths| => Source(paths[i], fs[paths[i]]))
  }

  /** Everything the sources deliver, one after the other. */
  function Joined(sources: seq<Source>): seq<byte>
  {
    if sources == [] then [] else Joined(sources[..|sources| - 1]) + sources[|sources| - 1].content
  }

  /** `sum(map(self.get_size, self.paths))`: no file is larger than the sum. */
  function SumSizes(paths: seq<string>, fs: FileSystem): (n: nat)
    requires AllFiles(paths, fs)
    ensures forall i :: 0 <= i < |paths| ==> |fs[paths[i]]| <= n
  {
    if paths == [] then 0 else SumSizes(paths[..|paths| - 1], fs) + |fs[paths[|paths| - 1]]|
  }

  /** The summed file sizes are the number of bytes the files deliver. */
  lemma {:induction false} SumSizesIsJoinedLength(paths: seq<string>, fs: FileSystem, stdin: seq<byte>)
    requires AllFiles(paths, fs) && paths != []
    ensures SumSizes(paths, fs) == |Joined(IterStream(paths, fs, stdin))|
  {
    var init := paths[..|paths| - 1];
    var sources := IterStream(paths, fs, stdin);
    if init == [] {
      assert sources[..0] == [];
    } else {
      SumSizesIsJoinedLength(init, fs, stdin);
      assert sources[..|sources| - 1] == IterStream(init, fs, stdin);
    }
  }

  /** `if self.total:` — a total was given and is not the empty string. */
  predicate TotalGiven(total: Option<string>)
  {
    total.Some? && total.value != ""
  }

  /** `get_total`: the progress bar's denominator, None when unknown, or the
      error a malformed `--total` raises. Sizes are only looked up in the
      branch that sums them; the caller has checked the paths by then. */
  function EstimateTotal(total: Option<string>, paths: seq<string>, feedMode: string, fs: FileSystem)
    : (r: Result<Option<nat>, ArgError>)
    requires !TotalGiven(total) && paths != [] && feedMode == "bytes" ==> AllFiles(paths, fs)
    ensures r.Failure? ==> TotalGiven(total) && r.error == UnrecognizedTotal(total.value)
  {
    if TotalGiven(total) then
      match ParseTotal(total.value)
      case Success(n) => Success(Some(n))
      case Failure(e) => Failure(e)
    else if paths == [] then Success(None)
    else if feedMode == "bytes" then Success(Some(SumSizes(paths, fs)))
    else Success(None)
  }

  /** A given total wins whatever the mode, the paths or the files. */
  lemma ExplicitTotalWins(total: Option<string>, paths: seq<string>, feedMode: string, fs: FileSystem,
                          paths': seq<string>, feedMode': string, fs': FileSystem)
    requires TotalGiven(total)
    ensures EstimateTotal(total, paths, feedMode, fs) == EstimateTotal(total, paths', feedMode', fs')
    ensures ParseTotal(total.value).Success? ==>
      EstimateTotal(total, paths, feedMode, fs) == Success(Some(ParseTotal(total.value).value))
  {
  }

  /** `if self.total:` treats an empty `--total` like none at all. */
  lemma EmptyTotalIsNoTotal(paths: seq<string>, feedMode: string, fs: FileSystem)
    requires paths != [] && feedMode == "bytes" ==> AllFiles(paths, fs)
    ensures !TotalGiven(Some("")) && !TotalGiven(None)
    ensures EstimateTotal(Some(""), paths, feedMode, fs) == EstimateTotal(None, paths, feedMode, fs)
  {
  }

  /** Without a total: nothing to estimate from standard input, the byte
      length of all files in bytes mode, and nothing in lines mode. */
  lemma EstimateWithoutTotal(total: Option<string>, paths: seq<string>, feedMode: string, fs: FileSystem,
                             stdin: seq<byte>)
    requires !TotalGiven(total) && AllFiles(paths, fs)
    ensures paths == [] ==> EstimateTotal(total, paths, feedMode, fs) == Success(None)
    ensures paths != [] && feedMode == "bytes" ==>
      EstimateTotal(total, paths, feedMode, fs) == Success(Some(|Joined(IterStream(paths, fs, stdin))|))
    ensures paths != [] && feedMode != "bytes" ==> EstimateTotal(total, paths, feedMode, fs) == Success(None)
  {
    if paths != [] {
      SumSizesIsJoinedLength(paths, fs, stdin);
    }
  }

  /** Three files of 100, 200 and 300 bytes: 600 in bytes mode, unknown in lines mode. */
  lemma ThreeFilesEstimate(fs: FileSystem)
    requires "a" in fs && "b" in fs && "c" in fs
    requires |fs["a"]| == 100 && |fs["b"]| == 200 && |fs["c"]| == 300
    ensures EstimateTotal(None, ["a", "b", "c"], "bytes", fs) == Success(Some(600))
    ensures EstimateTotal(None, ["a", "b", "c"], "lines", fs) == Success(None)
  {
    var paths := ["a", "b", "c"];
    assert paths[..2] == ["a", "b"] && paths[..2][..1] == ["a"] && paths[..2][..1][..0] == [];
    assert SumSizes(["a"], fs) == 100;
    assert SumSizes(["a", "b"], fs) == 300;
    assert SumSizes(paths, fs) == 600;
  }

  /** `read`: the byte reader for feed mode "bytes", the line reader otherwise. */
  function SelectReader(feedMode: string): (r: Reader)
    ensures r == ByteReader <==> feedMode == "bytes"
  {
    if feedMode == "bytes" then ByteReader else LineReader
  }

  /** With paths and no total, a total is estimated exactly when the byte
      reader runs: the bar's denominator and its updates are in the same unit. */
  lemma EstimateMatchesReader(total: Option<string>, paths: seq<string>, feedMode: string, fs: FileSystem)
    requires !TotalGiven(total) && paths != [] && AllFiles(paths, fs)
    ensures EstimateTotal(total, paths, feedMode, fs).Success?
    ensures EstimateTotal(total, paths, feedMode, fs).value.Some? <==> SelectReader(feedMode) == ByteReader
  {
  }

  /** Where the progress bar is written. */
  datatype Display = DevNull | Stderr

  /** The numeric logging levels. */
  const Debug: int := 10
  const Info: int := 20
  const Warning: int := 30
  const Error: int := 40
  const Critical: int := 50

  /** `pb_stream`: the bar is discarded when the logger's level is below WARNING. */
  function ProgressDisplay(level: int): (d: Display)
    ensures d == DevNull <==> level < Warning
  {
    if level < Warning then DevNull else Stderr
  }

  /** Verbose (info) and debug logging hide the bar; warning and above show it,
      and raising the level never hides a bar that was shown. */
  lemma DisplayByLevel(level: int, level': int)
    requires level <= level'
    ensures ProgressDisplay(Debug) == DevNull && ProgressDisplay(Info) == DevNull
    ensures ProgressDisplay(Warning) == Stderr && ProgressDisplay(Error) == Stderr
    ensures ProgressDisplay(Critical) == Stderr
    ensures ProgressDisplay(level) == Stderr ==> ProgressDisplay(level') == Stderr
  {
  }
}
