# pb — a verified model of the progress-bar pipe

`pb` copies files, or standard input, to standard output. While it copies, it draws a
progress bar that counts either bytes or lines. This project models the `PBar`
application of `src/progressbar/__init__.py` and proves its behaviour. The modelled parts are:

- the buffer-size option (`-b 10M`, `10mb`, `1K`, …) and its errors;
- the total option (`-t 2b`, `3T`, …) and its errors;
- the estimate of the bar's total when no total is given;
- path checking, where a lone `-` means standard input and the first non-file stops the run;
- choosing the byte or line reader, and where the bar is drawn;
- the chunked copy loop that forwards every chunk and advances the bar.

Modules:

- `Wrappers` (wrappers.dfy): `Option`, `Result` and `Outcome`.
- `Errors` (errors.dfy): the `ArgumentError`s and their messages.
- `Text` (text.dfy): ASCII lower-casing and the `$` end-of-text rule, plus decimal numerals.
- `Units` (units.dfy):
  - `BYTE_SCALE` and `COUNT_SCALE`;
  - scanners for the two regular expressions;
  - `ParseBufferSize` (`buff_size_in_bytes`) and `ParseTotal` (the first branch of `get_total`).
- `Chunks` (chunks.dfy): what a chunk advances the bar by, and why chunking does not matter.
- `Sources` (sources.dfy):
  - the file map;
  - `check_filepaths`'s normalisation;
  - `iter_stream` and `get_total`;
  - `read`'s reader choice and `pb_stream`.
- `ProgressBar` (pbar.dfy): the imperative part.
  - `Stream` is an open file, a cursor over its bytes.
  - `Sink` is standard output.
  - `Progress` is the tqdm bar, modelled as a counter with a label.
  - `PBar` has `CheckFilepaths`, which overwrites `paths` in place, and `Read` and `Run`.
  - The `while` loop of `read_bytes`/`read_lines` is `Drain`; the loop over sources is `Pump`.
  - `PBar.Read` and `PBar.Run` are proved against the functions `StreamTransfer` / `RunTransfer`, which state what one run leaves behind.
  - `Drain`, `Pump` and `Feed` are proved against `Flatten` and `Forwarded`, and `CheckFilepaths` against `NormalizePaths` and `FirstNonFile`.

The file system is a map from the paths of regular files to their contents.
- `os.path.isfile(p)` is `p in fs`.
- `os.path.getsize(p)` is `|fs[p]|`.

Standard input is a byte sequence, and the logger's level is an integer parameter. The
standard Python numbers are used: DEBUG 10, INFO 20, WARNING 30, ERROR 40, CRITICAL 50.

Three behaviours of the code are worth stating plainly:

- No giga count. `COUNT_SCALE` has no "g", so `-t 5g` is an unrecognized total (`Units.GigaTotalRejected`). For buffer sizes, "g", "t" and "p" are rejected as too large (`Units.GigabyteBufferRejected`).
- A zero buffer size is accepted. `0` matches the pattern and yields 0. Every `read(0)` then returns an empty chunk, so the run succeeds and copies nothing (`Units.SmallBufferSizes`, `ProgressBar.RunWritesConcatenation`).
- A bad buffer size is reported late. The buffer size is first parsed at the first `read`. By then the bar exists, the first source is open and the bar carries its name, although nothing has been written yet (`ProgressBar.PBar.Feed`).

## Model

| member | source | states |
|---|---|---|
| Text.LowerChar | src/progressbar/__init__.py:226 | `str.lower()` on one character turns each capital A–Z into its own lower-case letter and returns every other character unchanged |
| Text.Lower | src/progressbar/__init__.py:226 | lower-casing keeps the length and folds every character independently |
| Text.Chomp | src/progressbar/__init__.py:225 | what `$` lets the pattern match: the text minus its final newline when it ends in one, and the text itself otherwise |
| Text.DecimalValue | src/progressbar/__init__.py:227 | `int()` of a numeral of n digits is below 10^n |
| Text.LeadingZeroIgnored | src/progressbar/__init__.py:227 | a leading zero does not change the value `int()` reads (`int('007') == 7`) |
| Text.DecimalRoundTrip | src/progressbar/__init__.py:227 | `int()` reads back n from the numeral that the reference printer `DecimalString` writes for n, for every n |
| Errors.Message | src/progressbar/__init__.py:199-251 | each `ArgumentError` message ends with the option text or path exactly as given |
| Errors.MessageKind | src/progressbar/__init__.py:199-251 | the kind of error can be read off its message |
| Errors.MessageInjective | src/progressbar/__init__.py:199-251 | distinct errors have distinct messages |
| Units.SuffixTables | src/progressbar/__init__.py:208-220 | the byte table knows k and m, the too-large set is g, t, p, and the count table knows k, m, b, t |
| Units.DigitRun | src/progressbar/__init__.py:225 | the greedy `[0-9]+` takes a digit prefix that cannot be extended |
| Units.ScanBuffer | src/progressbar/__init__.py:225-228 | a match of the buffer pattern yields a non-empty digit group and a suffix of at most one letter |
| Units.ScanTotal | src/progressbar/__init__.py:242-245 | a match of the total pattern yields a non-empty digit group and a suffix of at most one letter |
| Units.ScanBufferSound | src/progressbar/__init__.py:225 | every match of the buffer scanner has the shape digits, optional letter, optional `b` |
| Units.ScanTotalSound | src/progressbar/__init__.py:242 | every match of the total scanner has the shape digits, optional letter |
| Units.ScanBufferComplete | src/progressbar/__init__.py:225-228 | every string of the buffer shape is matched with the same digits; the suffix is the letter group, or `b` when the only letter is a bare `b` (greedy `[a-z]?`) |
| Units.ScanTotalComplete | src/progressbar/__init__.py:242-245 | every string of the total shape is matched with exactly its digits and letter |
| Units.ParseBufferSize | src/progressbar/__init__.py:222-236 | the only errors are "Buffer size too large" and "Unrecognized buffer size", each carrying the option text as given |
| Units.ParseBufferSizeAccepts | src/progressbar/__init__.py:208-212 | digits with suffix "", k or m (any case; a trailing b only after k or m) give the value times 1, 1024 or 1024² |
| Units.ParseBufferSizeTooLarge | src/progressbar/__init__.py:231-232 | a suffix g, t or p raises "Buffer size too large" |
| Units.ParseBufferSizeOtherLetter | src/progressbar/__init__.py:233-234 | any other suffix letter raises "Unrecognized buffer size" |
| Units.ParseBufferSizeBareB | src/progressbar/__init__.py:225-234 | digits followed by a bare b are unrecognized, because the b is taken as the suffix letter |
| Units.ParseBufferSizeNoMatch | src/progressbar/__init__.py:235-236 | text of no matching shape raises "Unrecognized buffer size" |
| Units.ParseTotal | src/progressbar/__init__.py:241-251 | the only error is "Unrecognized total" carrying the option text |
| Units.ParseTotalAccepts | src/progressbar/__init__.py:214-220 | digits with suffix "", k, m, b or t (any case) give the value times 1, 10³, 10⁶, 10⁹ or 10¹² |
| Units.ParseTotalUnknownLetter | src/progressbar/__init__.py:248-249 | a letter outside the count table raises "Unrecognized total" |
| Units.ParseTotalNoMatch | src/progressbar/__init__.py:250-251 | text of no matching shape raises "Unrecognized total" |
| Units.ParseTotalTrailingB | src/progressbar/__init__.py:242 | a unit letter followed by b (as in 10kb) is never a total |
| Units.DefaultBufferSize | src/progressbar/__init__.py:40 | the default "10M" is 10485760 bytes |
| Units.MegabyteSpelling | src/progressbar/__init__.py:225-230 | "10mb" is 10485760 bytes |
| Units.SmallBufferSizes | src/progressbar/__init__.py:225-230 | "1K" is 1024 bytes and "0" is accepted as 0 |
| Units.GigabyteBufferRejected | src/progressbar/__init__.py:231-232 | "2G" is too large |
| Units.BareByteSuffixRejected | src/progressbar/__init__.py:233-234 | "10b" is unrecognized |
| Units.UnknownBufferSuffixRejected | src/progressbar/__init__.py:233-234 | "10x" is unrecognized |
| Units.TotalExamples | src/progressbar/__init__.py:214-220 | "2b" is 2·10⁹ and "3T" is 3·10¹² |
| Units.TrailingBTotalRejected | src/progressbar/__init__.py:242-251 | "10kb" is not a total |
| Units.GigaTotalRejected | src/progressbar/__init__.py:246-249 | "5g" is not a total |
| Chunks.NewlineCount | src/progressbar/__init__.py:174 | `buff.count(b'\n')` is at most the chunk's length, and 0 exactly when the chunk holds no newline |
| Chunks.Advance | src/progressbar/__init__.py:160-176 | a chunk advances the bar by at most its length, and by exactly its length in bytes mode |
| Chunks.NewlineCountIsMultiplicity | src/progressbar/__init__.py:174 | `buff.count(b'\n')` equals the multiplicity of the newline byte |
| Chunks.NewlineCountAppend | src/progressbar/__init__.py:174-176 | counting newlines distributes over concatenation |
| Chunks.UnterminatedLineNotCounted | src/progressbar/__init__.py:174-176 | a final line without a newline adds nothing to the line count |
| Chunks.ThreeLinesCountTwo | src/progressbar/__init__.py:174 | "a\nb\nc" counts 2 |
| Chunks.AdvanceAppend | src/progressbar/__init__.py:160-162 | the bar's advance for two joined chunks is the sum of their advances, in both modes |
| Chunks.FlattenAppend | src/progressbar/__init__.py:142-143 | the output of two runs of chunks is their outputs joined |
| Chunks.ChunkingInvariance | src/progressbar/__init__.py:159-162 | the per-chunk updates add up to the measure of the whole content, however it was chunked |
| Sources.NormalizePaths | src/progressbar/__init__.py:201-202 | no paths remain exactly when none were given or the only one was "-"; otherwise the paths are unchanged |
| Sources.FirstNonFile | src/progressbar/__init__.py:204-206 | the reported path is the first one that is not a regular file; all before it are files |
| Sources.IterStream | src/progressbar/__init__.py:187-197 | no paths open standard input alone; otherwise one stream per path, in order, with that file's content |
| Sources.SumSizes | src/progressbar/__init__.py:255 | the summed size is at least the size of each file |
| Sources.SumSizesIsJoinedLength | src/progressbar/__init__.py:255 | the summed file sizes equal the number of bytes the files deliver |
| Sources.EstimateTotal | src/progressbar/__init__.py:238-251 | the only failure is "Unrecognized total", and only when a total was given |
| Sources.EmptyTotalIsNoTotal | src/progressbar/__init__.py:241 | `if self.total:` treats an empty total like no total: the estimate is the same |
| Sources.ExplicitTotalWins | src/progressbar/__init__.py:241-247 | a non-empty total decides the result whatever the paths, mode or files |
| Sources.EstimateWithoutTotal | src/progressbar/__init__.py:252-255 | without a total: None for standard input, the byte length of all files in bytes mode, None in lines mode |
| Sources.ThreeFilesEstimate | src/progressbar/__init__.py:254-255 | files of 100, 200 and 300 bytes estimate 600 in bytes mode and nothing in lines mode |
| Sources.SelectReader | src/progressbar/__init__.py:145-148 | the byte reader runs exactly for feed mode "bytes" |
| Sources.EstimateMatchesReader | src/progressbar/__init__.py:145-255 | with paths and no total, a total is estimated exactly when the byte reader runs |
| Sources.ProgressDisplay | src/progressbar/__init__.py:179-185 | the bar is discarded exactly when the level is below WARNING |
| Sources.DisplayByLevel | src/progressbar/__init__.py:179-185 | debug and info hide the bar, warning and above show it, and raising the level never hides it |
| ProgressBar.Stream.Open | src/progressbar/__init__.py:187-197 | an opened stream will deliver its source's whole content |
| ProgressBar.Stream.Read | src/progressbar/__init__.py:159-173 | a read returns the next min(limit, remaining) bytes and consumes exactly them |
| ProgressBar.Sink.constructor | src/progressbar/__init__.py:143 | standard output starts empty |
| ProgressBar.Sink.Write | src/progressbar/__init__.py:143 | a write appends the chunk to what was written |
| ProgressBar.Progress.constructor | src/progressbar/__init__.py:152-170 | the bar starts at 0 with the given total, unit, divisor and display |
| ProgressBar.Progress.Update | src/progressbar/__init__.py:162-176 | `update(n)` raises the count by exactly n and changes nothing else |
| ProgressBar.Progress.SetDescription | src/progressbar/__init__.py:158-172 | `set_description` sets the label and nothing else |
| ProgressBar.Progress.Close | src/progressbar/__init__.py:152-177 | leaving the `with` block closes the bar and keeps its count |
| ProgressBar.AppendChunk | src/progressbar/__init__.py:159-163 | one more chunk within the limit extends the output and the count at the end |
| ProgressBar.PumpStep | src/progressbar/__init__.py:157-163 | after one more source, the output is what the first i+1 sources forward |
| ProgressBar.StreamTransfer | src/progressbar/__init__.py:145-177 | a failed stream step writes and counts nothing and never reports a path; the count is always the mode's measure of the output |
| ProgressBar.RunTransfer | src/progressbar/__init__.py:138-143 | a failed run writes and counts nothing; "Not a file" is reported exactly when some checked path is not a file, and it names a given path missing from the file map; the count is the mode's measure of the output |
| ProgressBar.Drain | src/progressbar/__init__.py:159-177 | the read loop forwards the stream's remaining content unchanged, in non-empty chunks of at most the buffer size, and advances the bar by its measure; the stream is left exhausted, or untouched for a buffer size of 0 |
| ProgressBar.Pump | src/progressbar/__init__.py:150-177 | all sources are forwarded in order; the bar advances by the measure of the whole output and is labelled with the last source |
| ProgressBar.PBar.constructor | src/progressbar/__init__.py:111-121 | the application holds the parsed options |
| ProgressBar.PBar.CheckFilepaths | src/progressbar/__init__.py:199-206 | `paths` is normalised in place; it passes exactly when every path is a file, else reports the first non-file |
| ProgressBar.PBar.Feed | src/progressbar/__init__.py:150-177 | a bad buffer size closes the bar after labelling the first source, having written nothing; otherwise every source is forwarded and counted and the bar is closed |
| ProgressBar.PBar.Read | src/progressbar/__init__.py:145-177 | the output, outcome and final count are those of the stream specification; the bar exists exactly when the total is valid, with that total, the mode's unit and divisor (1024 for bytes, 1000 for lines) and the level's display |
| ProgressBar.PBar.Run | src/progressbar/__init__.py:138-143 | a run checks the paths and then streams; its output, outcome and count are those of the run specification; a bar exists exactly when the paths are files and the total is valid, and it carries the estimated total, the mode's unit and divisor, and the level's display |
| ProgressBar.RunWritesConcatenation | src/progressbar/__init__.py:138-197 | a successful run writes every source's content in order (nothing for buffer size 0) |
| ProgressBar.BytesCountReachesTotal | src/progressbar/__init__.py:150-163 | in bytes mode the count ends at the bytes written, which is the summed-size estimate when files were given, no total was set and the buffer size is not 0 |
| ProgressBar.LinesCountNewlines | src/progressbar/__init__.py:174-176 | in lines mode the count ends at the number of newline bytes written |
| ProgressBar.MissingFileFailsFast | src/progressbar/__init__.py:199-206 | the first missing path stops the run with "Not a file" before anything is written or another option is checked |
| ProgressBar.TotalErrorBeforeBufferError | src/progressbar/__init__.py:238-251 | a malformed total is reported before the buffer size is parsed, with nothing written |
| ProgressBar.DashMeansStdin | src/progressbar/__init__.py:187-206 | a lone "-" runs like no paths and copies standard input; inside a longer list "-" is an ordinary path |
| ProgressBar.ThreeLinesFromStdin | src/progressbar/__init__.py:165-177 | "a\nb\nc" on standard input counts 2 lines |

## Left out

- The tqdm bar's rendering, throttling, rate and ETA, and its unit scaling. The bar is a counter with a label, a total, a unit, a divisor and a display target.
- `format_size` and the `log.info` / `log.debug` messages. They only produce log text.
- The cmdkit glue: configuration, the argument parser, the logger and the exception-to-exit-status map. The options arrive as constructor arguments, and errors are values of `ArgError` (`Errors.Message` gives their text).
- Help-text colouring (`format_special_args`, `colorize_usage`, `NOT_QUOTED`). It is presentation only.
- Real I/O: `open`, `sys.stdin.buffer`, `sys.stdout.buffer`, `os.path.isfile` and `os.path.getsize`. They are a file map and byte sequences, and the file system does not change during a run. No I/O error is modelled: not one from `getsize` or `open`, nor one in the middle of the stream, such as an `OSError` from `stream.read` (lines 159 and 173) or a `BrokenPipeError` from `sys.stdout.buffer.write` (line 143), which would leave partial output.
- The `@cache` / `@cached_property` memoisation. Each value is computed once per run in the model as well.
- `str.lower()` on non-ASCII characters. Only A–Z are folded. Such characters can never match `[0-9]` or `[a-z]`, except for a few that Python lower-cases to ASCII, such as the Kelvin sign.
- Where the logger's level comes from. `run` sets it from the configured `cfg.logging.level` (line 140). The attribute that `--logging`, `-v` and `-d` set (`logging_level`, lines 123-128) is not read anywhere in this file. The model takes the level `run` sets as a number parameter, so it does not capture any effect of those options.
- Sources.EstimateTotal: it requires every path to be a file in the branch that sums sizes. `run` checks the paths first, so the error `getsize` would raise on a missing path is not modelled.
- Units.ParseBufferSize: any size is accepted, however large. CPython's `read(n)` needs n to fit a C `ssize_t`, so a size of 2^63 bytes or more (such as `-b 8796093022208m`) raises `OverflowError` at the first read (lines 159 and 173), after the bar is labelled and before anything is written. In the model such a run succeeds and copies everything. That error is not an `ArgumentError` and comes from the interpreter, not from this file.
- ProgressBar.Stream.Read: it returns the full `limit` whenever that much is left. A blocking buffered reader, which both `open(path, 'rb')` and `sys.stdin.buffer` are, does the same. A non-blocking standard input, whose reads can come back short or empty early, is not modelled.
- ProgressBar.PBar.Feed: it labels the bar with the first source before the first read. `Pump` then labels it again with the same name, which is how the source's loop sets it.
