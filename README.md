# cfilterv2hashes: a verified model of the batch filter export

`cfilterv2hashes` is a one-shot command-line tool (`main.go`). It asks a Decred
node (dcrd) over RPC for the version-2 committed filter of every block from height
0 up to a target height, and writes either a Go source file holding the hex hash of
every filter (`--hashes`) or the raw filters, each behind a two-byte big-endian
length (`--binary`). With `--progress` it also logs a line every 10000 heights and,
at the end, a digest of all filter bytes, the total size, an average size and the
largest size.

This project models the core of `main`:

- the settings checks: the two output modes are exclusive, the target may not pass
  the block count, and a target of 0 means the block count;
- the fetch loop. It walks the heights in windows of 4000, the last one clamped to
  end at the target. Each window gets one fetch task per slot of a reused buffer.
  The tasks run in any order, and a failing task stops the run;
- the per-filter output, the running statistics and the progress lines.

The fetch loop is imperative Dafny: a method with an `array` buffer, a `while`
loop per window and a `while` loop per slot. Each method is proved against pure
specification functions, and the lemmas state what the source promises about
those functions.

Files and modules:

- `common.dfy` (`Common`): `Option`, the fallible RPC result `Fetch`, bytes, Go's
  `int64`/`uint64` and the Go operations the export uses (`int64(x)` of a
  `uint64`, integer division truncating toward zero).
- `settings.dfy` (`Settings`): the `config` record, the defaults read from
  `dcrd.conf`, the output-mode check and the resolution of the target height.
- `windows.dfy` (`HeightWindows`): the partition of `[0, target]` into windows.
- `wire.dfy` (`Wire`): the binary record format with a decoder, and the hashes
  document with a parser.
- `stats.dfy` (`Stats`): total size, largest size and the digest input.
- `export.dfy` (`Export`): the whole program after flag parsing, as methods
  (`Export`, `CheckSettings`, `Run`, `ExportRange`, `Round`, `FillWindow`, `EmitWindow`,
  `EmitOne`, `Finish`). Their contracts are stated over specification functions:
  - `ExpectedOut`, `ExpectedLog`, `StatusAllowed` and `Requested` for the whole
    program;
  - `RunOut`, `RunLog`, `RunStatus` and `RunRequested` once the target is known.
- `guarantees.dfy` (`Guarantees`): run-level properties of those specification
  functions.

The daemon is a parameter `rpc`, made of two total functions, height to block hash
and block hash to filter. Either call may fail with an error message. Connecting,
and asking for the block count, is summarised by a parameter `blockCount`: the
count, or the error that stopped the program before it. The output is returned as
the bytes written to standard output, the list of log lines, and a `Status`. A
fatal `log.Fatal`, `os.Exit(1)` or the division panic becomes `Fatal(why)`. The
ghost set `asked` records the heights whose block hash was requested.

The hex hash of a filter (blake256 of the filter, printed through
`chainhash.Hash.String`) is a function parameter `hashHex`. The process-wide digest
is modelled as its input: the bytes fed to the hasher, in order.

Three behaviours of `main.go` are kept as written:

- the two-byte length prefix silently keeps the length modulo 65536, and
  `Wire.DecodeEncodeAll` shows that the binary stream then no longer reads back;
- the average line divides the total by the target, not by the number of filters
  (which is the target plus one);
- a target of 0 with `--progress` ends in Go's division-by-zero panic, after the
  digest and total-size lines.

## Model

| member | source | states |
|---|---|---|
| Common.ToInt64 | main.go:133 | Go's `int64(x)` of a `uint64`: the same value below 2^63, otherwise the negative number 2^64 below it |
| Common.Quot | main.go:219 | Go's `/` truncates toward zero: the magnitude is the quotient of the magnitudes, and a negative divisor gives a non-positive result |
| Common.Bytes | main.go:138-140 | Writing ASCII text puts one byte per character, its code |
| Settings.Initial | main.go:46-49 | Before anything is read, only the certificate path is set (to `rpc.cert` in dcrd's data directory); every flag is off and the target is 0 |
| Settings.WithDcrdConf | main.go:51-66 | A parsed `dcrd.conf` supplies user and password, sets the connect address to port 19109 on testnet (which it also switches on) and 9109 otherwise, and leaves the certificate path unchanged |
| Settings.DefaultsMatchNetwork | main.go:57-65 | From the initial options, the defaults from `dcrd.conf` use the testnet port exactly when they select testnet |
| Settings.CheckModes | main.go:80-83 | A failure is reported exactly when both `--hashes` and `--binary` are set |
| Settings.ResolveTarget | main.go:108-114 | For targets below 2^63: accepted exactly when not above the block count; 0 becomes the block count, any other target is kept; the error names the target and the count |
| HeightWindows.NumWindows | main.go:145-152 | The number of rounds `n` is the one with `(n-1)*4000 <= target < n*4000`, and 0 for a negative target |
| HeightWindows.WindowAt | main.go:145-152 | Round `k` starts at `k*4000`, holds at most 4000 heights, never passes the target, and ends at the target exactly in the last round |
| HeightWindows.WindowsTile | main.go:145-152 | The windows start at 0, each starts right after the previous one ends, the last ends at the target, and each holds 1 to 4000 heights |
| HeightWindows.WindowOf | main.go:145-152 | A height lies in window `k` if, and only if, it is in `[0, target]` and `k` is the height divided by 4000 |
| HeightWindows.WindowCount | main.go:145-152 | The number of windows is the ceiling of `(target+1)/4000` |
| Wire.PutUint16 | main.go:190-191 | Two bytes, high then low, that spell the length modulo 65536 |
| Wire.EncodeRecord | main.go:187-194 | A binary record is two bytes longer than the filter, ends with the filter bytes, and its prefix reads back as the length modulo 65536 |
| Wire.EncodeAllAppend | main.go:180-194 | The records of two lists of filters, one after the other, are the records of the joined list; there is no separator |
| Wire.Decode | main.go:187-194 | The reader of the binary format (not in the source) only yields records shorter than 65536 bytes |
| Wire.DecodeEncodeAll | main.go:187-194 | Decoding the binary records of a list of filters gives back exactly that list if, and only if, every filter is at most 65535 bytes long |
| Wire.Network | main.go:116-119 | The network name is "testnet3" exactly on testnet and "mainnet" otherwise |
| Wire.Chunks | main.go:181-184 | Splitting the hashes text yields only pieces of 64 hex characters |
| Wire.ChunksConcat | main.go:181-184 | Hash texts of 64 characters each, written one after the other, split back into exactly those texts |
| Wire.PreamblesDiffer | main.go:137-142 | The mainnet preamble is not a prefix of the testnet one, so a document names its network unambiguously |
| Wire.ParseHashesDocRoundTrip | main.go:137-142 | Preamble, then the hash texts, then the closing `"` and newline (lines 181-184 and 210-212) parse back into the network and exactly those texts if, and only if, every text is 64 characters |
| Stats.MaxLenIsMax | main.go:199-201 | The running maximum, starting at 0, is at least every filter's length and equals one of them unless there are none |
| Stats.ConcatLength | main.go:196-197 | The digest input is exactly as long as the total size |
| Stats.ConcatAt | main.go:197 | Filter `i`'s bytes sit in the digest input right after the bytes of the filters before it |
| Stats.TotalLenAppend | main.go:196 | The total size of two lists of filters, one after the other, is the sum of their totals |
| Stats.MaxLenAppend | main.go:199-201 | The largest size over two lists of filters is the larger of their maxima |
| Stats.ConcatAppend | main.go:197 | The digest input of two lists of filters is their inputs one after the other |
| Export.FirstFailure | main.go:159-175 | The first height at or after `x` whose fetch fails (or `target+1`): every height before it succeeds, and it fails if it is within the target |
| Export.FillWindow | main.go:155-172 | Whatever order the tasks run in, the window succeeds exactly when every fetch in it does, and then slot `i` holds the filter of height `h+i`; otherwise the error is that of a failing fetch in the window; every height of the window is asked for, and the slots from `step` on keep their contents |
| Export.EmitOne | main.go:180-206 | One filter appends its hash text and/or binary record to the output, a progress line at a multiple of 10000, its length to the total, its bytes to the digest input, and raises the maximum to its length |
| Export.EmitWindow | main.go:180-207 | Writing out the first `step` slots extends the output, log and statistics exactly as the filters of those slots, in slot order, prescribe |
| Export.Round | main.go:147-175 | A round either fails, with the error of a failing fetch in its window and nothing written, or extends what is written for heights below `h` to the heights below `h+step` |
| Export.ExportRange | main.go:144-208 | The `for h` loop writes the filters of every fully fetched window, in height order. It succeeds exactly when every height up to the target is fetched; its visited windows are the target's partition, or a non-empty prefix of it ending at a window with a failing fetch; it asks for every height up to the end of the last window started |
| Export.CheckSettings | main.go:80-114 | The checks in source order give the stage: conflicting modes first, then a failed connection or block count, then a target above the count; otherwise the run goes ahead with 0 replaced by the block count and the target read as `int64` |
| Export.Export | main.go:80-221 | The program's output, log, status and requested heights are those of `ExpectedOut`, `ExpectedLog`, `StatusAllowed` and `Requested`: nothing is fetched unless the settings checks pass |
| Export.Run | main.go:133-221 | Once the target is known: the header, the filters of every fully fetched window, the footer only when no window failed; progress lines for the written heights; the statistics only after a complete run; a failed run reports a failing fetch of the next window |
| Export.Finish | main.go:210-221 | After the last window: the closing quote line in hashes mode; then, with progress, the digest, total, average (total divided by target) and maximum lines, stopping with a division-by-zero failure after the total when the target is 0 |
| Export.RunningStage | main.go:108-134 | Once the checks pass, the program's output and status are the run's, and its log is the "Generating" line (with progress) followed by the run's |
| Export.BodyAppend | main.go:180-207 | The output of two lists of filters is their outputs one after the other |
| Export.ProgressLinesSplit | main.go:203-206 | The progress lines of two adjacent height ranges, joined, are those of the joined range |
| Export.AfterAppend | main.go:145-208 | Writing the filters of `a` then those of `b` leaves output, log and statistics as writing `a + b` does |
| Export.AfterSnoc | main.go:180-207 | Writing one more filter extends each part of the output, log and statistics by that filter's share |
| Export.AfterOne | main.go:180-206 | Writing a single filter contributes its record, its progress line, its length, its bytes and the larger of its length and the running maximum |
| Export.FiltersExtend | main.go:156-180 | Filters of heights below `h`, followed by slots holding the filters of heights `h..h+step-1`, are the filters of heights below `h+step` |
| Export.WalkOn | main.go:145-175 | A window whose fetches all succeed keeps the loop's invariant: all earlier heights fetched, the visited windows a prefix of the partition, the asked heights exactly those below the new `h` |
| Export.VisitNext | main.go:145-152 | The window visited next, with the clamped `step`, is the next window of the partition |
| Export.WalkStops | main.go:145-175 | A failing fetch in the window at `h` ends the run: not complete, exactly the heights below `h` written, the window width `min(4000, target+1-h)` |
| Export.WalkEnds | main.go:145-208 | Leaving the loop past the target means every height was fetched and all windows were visited |
| Export.StopsAtWindow | main.go:172-175 | A failing height in the window starting at `h`, with all heights below `h` fine, makes `h` the number of heights written |
| Export.RunsToEnd | main.go:145-208 | When every fetch up to the target succeeds, the run is complete and writes every height in `[0, target]` |
| Guarantees.EmittedPrefix | main.go:159-175 | The written heights are a prefix of `[0, target]` whose fetches succeed. The prefix is all of `[0, target]` exactly when the run completes; otherwise it ends at a multiple of 4000 and the next window holds a failing fetch |
| Guarantees.BodyBinary | main.go:187-194 | In binary mode alone, the filters' output is their binary records |
| Guarantees.BinaryRunDecodes | main.go:187-194 | A binary run's stream is the records of the written filters in height order; it decodes to exactly those filters if, and only if, none is longer than 65535 bytes |
| Guarantees.BodyHashes | main.go:181-184 | In hashes mode alone, the filters' output is their hash texts one after the other |
| Guarantees.HashesRunParses | main.go:137-212 | A complete hashes run writes the document for its network with the hash text of each filter in height order, and it parses back into them exactly when each is 64 characters |
| Guarantees.FailedRunIsPrefix | main.go:172-175 | A run stopped by a failing window has written a prefix of what a fully successful run would write: header and earlier windows, no footer |
| Guarantees.ProgressLinesExactly | main.go:203-206 | Progress lines name exactly the heights in range that are multiples of 10000, in increasing order, and only with `--progress` |
| Guarantees.StatisticsLogged | main.go:214-221 | A complete run with progress and a positive target logs the digest input (every filter's bytes in height order), the total (its length), the total divided by the target (over target+1 filters) and the largest size (no filter is longer, one is that long) |
| Guarantees.ZeroTargetDividesByZero | main.go:219 | With a target of 0 and progress, the run fails with division by zero after logging the digest input and the total size |
| Guarantees.BothModesStopFirst | main.go:80-83 | `--hashes` with `--binary` prints the complaint, logs nothing, fails, and fetches nothing |
| Guarantees.TargetAboveTipStops | main.go:108-111 | A target above the block count writes nothing, fails naming target and count, and fetches nothing |
| Guarantees.ZeroTargetMeansBlockCount | main.go:112-114 | A target of 0 is replaced by the block count, and a complete run then asks for every height up to the block count |

## Left out

- Flag parsing, help output and `dcrd.conf` discovery and INI parsing (`main.go:46-78`) are library and file-system calls. Only their outcome is modelled: the option record `Settings.Config`, the defaults rule `Settings.WithDcrdConf`, and `Settings.Initial` with the data directory's certificate path as a parameter.
- Reading the certificate, connecting the websocket client and asking for the block count (`main.go:86-106`) are network and file I/O. They are the single parameter `blockCount`: a count, or the error message that ends the program. `client.Shutdown` (`main.go:223`) is not modelled.
- `errgroup` concurrency (`main.go:155-172`) becomes a sequential loop over the window's slots in a nondeterministically chosen order. Every task still runs after one fails, and the error kept is the first in that order. Thread interleavings within a task are not modelled; each task writes only its own slot.
- blake256, `gcs.FilterV2.Hash`, `chainhash.Hash.String` and `SetBytes` are foreign cryptography and formatting. The per-filter hex text is the function parameter `hashHex`, and the digest line carries the digest's whole input rather than its hash.
- Log message text is not modelled. Each `log.Printf` is a `LogLine` value, and the total size is kept in bytes rather than as the floating-point MiB figure of `main.go:218`. The message of a fatal error is the `Status` value, not a log line.
- The cut-down buffer `cfilters[:step]` (`main.go:151`) is modelled by reading only the first `step` slots of the 4000-slot array.
- Export.EmitOne: the running total and the heights `h`, `h+i`, `h+step` are unbounded integers. Go's `int64` arithmetic on them would wrap only beyond 2^63, which no chain reaches.
- Settings.ResolveTarget: the contract only states the outcome for targets below 2^63. For larger targets, the function follows Go's `int64` conversion: the target reads as negative, passes the check and is kept. `Common.ToInt64` states that conversion, and the run then has no window.
- Output write errors on standard output are ignored by the source, and so are not modelled.
