# docker-stats-go, modelled in Dafny

`docker-stats-go` streams resource statistics for every running Docker container and prints one record per sample. It can print them as a tab-separated table, as CSV or as JSON. This project models and proves its sequential core.

- **Metric derivation** (`calculate-stats.go`) is modelled in `calculate_stats.dfy`. Four pure functions turn one Docker stats record into:
  - the CPU percentage, with separate Linux and Windows formulas;
  - memory usage;
  - the memory limit;
  - the memory percentage.

  Counters are Go `uint64`, so their subtractions and the Windows product wrap modulo 2^64. `time.Time.Sub` saturates at the `int64` bounds. Go's `int64` division truncates toward zero. The model writes each of these out explicitly (`Sub64`, `Mul64`, `Elapsed`, `Div100`, `Int64ToUint64`). `float64` values are modelled as `real`.
- **Stream framing** (`getDockerContainerStats`, `main.go`) is modelled in `stats_stream.dfy`. Each monitor reads the daemon's streamed body with `ReadBytes('\n')`. It decodes every complete line, sends it to the event loop, and returns an error once the stream ends. Its goroutine then sends "done". The reader is a method with a loop, proved against `Lines`, a function that cuts a body into complete lines. JSON decoding is an uninterpreted `Decoder` function.
- **Rendering** (`CalculatedStats.Strings`, `Header`) is modelled in `render.dfy`. This covers ID truncation, leading-slash trimming, field order and the table line `join(fields, "\t") + "\n"`. `%.2f` and `units.BytesSize` are opaque functions in a `Formatting` value.
- **Options** (`Options.Parse`, writer selection) are modelled in `options.dfy`.
- **Writers** are modelled in `writers.dfy` as one `Writer` class. Its `format` says whether it is the table, CSV or JSON writer.
  - The table writer's standard-output text is modelled exactly.
  - The CSV writer keeps the rows it has buffered and the rows it has flushed.
  - The JSON writer keeps the records it has encoded.
- **The event loop of `main`** is modelled in `event_loop.dfy` as the class `Loop`. It has the `dockerMonitors` counter, a quit-pending flag, the writer, a process status and one method per kind of event. `Run` handles a sequence of events in order.

The modules are `Wrappers` (Option and Result), `DockerTypes` (the Docker API types read by the tool), `Seqs` (generic sequence lemmas, Go's `strings.Join`, and a splitter used to state round trips), `CalculateStats`, `Render`, `Options`, `Writers`, `StatsStream` and `EventLoop`.

Behaviour that is easy to misread, modelled as the code does it:
- A line that fails to decode is still sent. `json.Unmarshal`'s error is ignored, so the decoder's result is forwarded whatever it is.
- Reaching zero monitors does not end the loop at once. It starts a goroutine that sends "No monitors left" on the quit channel. Stats events handled before that quit arrives are still written.
- A done event decrements the counter even when it is already 0.
- Linux memory usage is `Usage - Stats["cache"]` in `uint64`. When the cache exceeds the usage, the result wraps to a large value. It is not clamped and it is never negative.
- The Windows interval count is the elapsed nanoseconds divided by 100 (truncated), converted to `uint64` (wrapping when negative), and multiplied by `NumProcs` (wrapping).
- An unknown `--format` value exits with status 0.

## Model

| member | source | states |
|---|---|---|
| CalculateStats.Sub64 | calculate-stats.go:16 | `uint64` subtraction: the plain difference when it does not underflow, the difference plus 2^64 when it does |
| CalculateStats.Mul64 | calculate-stats.go:18 | `uint64` multiplication: the product modulo 2^64, which is the plain product whenever that fits in 64 bits |
| CalculateStats.Int64ToUint64 | calculate-stats.go:15 | `uint64(int64)`: non-negative values unchanged, negative values plus 2^64 |
| CalculateStats.Elapsed | calculate-stats.go:15 | `Read.Sub(PreRead)`: the exact difference whenever it fits in `int64`; otherwise it saturates at MaxInt64 or MinInt64 |
| CalculateStats.PossibleIntervals | calculate-stats.go:15-18 | Windows possible intervals: 0 with no processors or under 100 ns elapsed, and ⌊elapsed/100⌋ × NumProcs for a forward interval whose product fits in 64 bits |
| CalculateStats.LinuxOnlineCPUs | calculate-stats.go:27-31 | The reported CPU count when it is non-zero, the per-core array's length otherwise; 0 exactly when both are 0 |
| CalculateStats.Cache | calculate-stats.go:48 | The "cache" entry of the memory statistics, or 0 when the key is missing (Go's zero value) |
| CalculateStats.Div100 | calculate-stats.go:15 | Division by 100 truncates toward zero, for both signs |
| CalculateStats.CalculateCPUPercentage | calculate-stats.go:9-38 | Never negative; 0 on any platform other than "linux" and "windows" |
| CalculateStats.CalculateMemoryUsage | calculate-stats.go:40-52 | Linux: usage minus cache when the cache fits, usage alone when the "cache" key is missing, the wrapped difference when the cache exceeds the usage. Windows: the private working set. Any other platform: 0 |
| CalculateStats.CalculateMemoryLimit | calculate-stats.go:54-63 | The `Limit` field on Linux, 0 on every other platform |
| CalculateStats.CalculateMemoryPercentage | calculate-stats.go:65-76 | Never negative; 0 when not Linux and 0 when the Linux limit is 0 |
| CalculateStats.UnknownPlatformIsZero | calculate-stats.go:9-76 | All four metrics are 0 for a platform other than "linux" or "windows" |
| CalculateStats.LinuxCPUZeroIff | calculate-stats.go:23-34 | Linux CPU is 0 if and only if the CPU counter or the system counter did not move, or no CPU count is available; otherwise it is positive |
| CalculateStats.LinuxCPUFormula | calculate-stats.go:24-34 | With both counters advancing, Linux CPU is cpuDelta / systemDelta × CPUs × 100 |
| CalculateStats.LinuxOnlineCPUsFallback | calculate-stats.go:27-31 | A reported CPU count of 0 gives the same result as reporting the per-core array's length |
| CalculateStats.LinuxNoCPUsIsZero | calculate-stats.go:27-34 | No CPU count and an empty per-core array give 0, however far the counters moved |
| CalculateStats.LinuxCounterWentBackwards | calculate-stats.go:25-33 | A CPU counter that went backwards wraps to delta + 2^64 and yields a positive percentage, not 0 |
| CalculateStats.WindowsCPUZero | calculate-stats.go:14-22 | Windows CPU is 0 with no processors or less than 100 ns between samples |
| CalculateStats.WindowsFirstSample | calculate-stats.go:14-22 | A first sample whose PreRead is the zero time: elapsed saturates at MaxInt64, its hundredth is 92 233 720 368 547 758, possible intervals are that times NumProcs modulo 2^64, and with one processor the CPU is used over that × 100 |
| CalculateStats.WindowsCPUFormula | calculate-stats.go:14-22 | Without overflow, possible intervals are ⌊elapsed/100⌋ × NumProcs, and the percentage is used / possible × 100 |
| CalculateStats.WindowsMemoryPercentageZero | calculate-stats.go:54-76 | Windows has no memory limit, so its memory percentage is always 0 |
| CalculateStats.MemoryPercentageFromSiblings | calculate-stats.go:65-76 | With a non-zero limit, the memory percentage is the sibling usage over the sibling limit × 100 |
| CalculateStats.LinuxMemoryPercentageBounded | calculate-stats.go:65-76 | Linux usage within a positive limit gives a percentage between 0 and 100 |
| CalculateStats.LinuxCPUExample | calculate-stats.go:23-34 | Counters 100→200 and 1000→1200 on 4 CPUs give exactly 200% |
| CalculateStats.LinuxMemoryExample | calculate-stats.go:40-76 | Usage 3 000 000 with cache 1 000 000 and limit 10 000 000 gives usage 2 000 000 and 20% |
| Render.TrimLeadingSlashes | main.go:64 | `strings.TrimLeft(name, "/")` is a suffix of the name, does not start with '/', and only '/' was removed |
| Render.Header | main.go:81-83 | The header has FieldCount (8) fields |
| Render.Strings | main.go:59-79 | Succeeds if and only if the ID has at least 10 characters; otherwise it panics (IdTooShort). On success: as many fields as the header; field 0 is the OS and field 3 the image; field 1 is the ID's 10-character prefix; field 2 is the name with its leading '/' characters removed: a suffix of it that does not start with '/'; fields 4–7 are CPU percentage, memory, memory limit and memory percentage in that order, each as `%.2f`, or, when human-readable, the percentages as `%.2f%%` and the two memory figures as `units.BytesSize` |
| Render.HumanReadableChangesOnlyNumbers | main.go:62-76 | The human-readable flag leaves fields 0–3 identical and only adds '%' to the two percentage columns |
| Render.TableLine | main.go:127 | The line is the fields joined by tabs followed by exactly one newline |
| Render.TableLineRoundTrip | main.go:126-129 | A table line ends in '\n', and splitting its text on tabs gives back the fields when no field holds a tab |
| Render.TableLineTabs | main.go:126-129 | A line of 8 fields, none holding a tab, holds exactly 7 tabs |
| Options.Parse | main.go:95-106 | Continues if and only if the format is "table", "csv" or "json"; otherwise prints the usage and exits with status 0 |
| Options.SelectWriter | main.go:206-213 | "csv" selects the CSV writer, "json" the JSON writer, and anything else the table writer |
| Options.SelectWriterOfName | main.go:206-213 | Each writer's name is accepted by Parse and selects that writer |
| Options.SelectWriterAfterParse | main.go:206-213 | After Parse accepts a format, the writer chosen is the one the format names |
| Options.DefaultIsTable | main.go:92 | The default format "table" is accepted and selects the table writer |
| StatsStream.Lines | main.go:29-34 | The reference definition of the lines `ReadBytes('\n')` returns without error: no contract of its own; its properties are the framing lemmas below |
| StatsStream.LinesRebuildBody | main.go:29-34 | The complete lines followed by the trailing fragment are exactly the body |
| StatsStream.FragmentHasNoNewline | main.go:31-34 | The unread trailing fragment holds no newline |
| StatsStream.LinesAreComplete | main.go:31 | Every line ends in its only newline |
| StatsStream.LinesOnePerNewline | main.go:30-37 | There is one line per newline in the body |
| StatsStream.LinesAppend | main.go:30-37 | After a complete last line, the lines of a longer body are the old lines followed by the new ones |
| StatsStream.TrailingFragmentIgnored | main.go:31-34 | Bytes without a newline after the last line add no line |
| StatsStream.ReadBytes | main.go:31 | Returns the bytes up to and including the next newline, or the rest of the body plus end-of-stream when there is no newline |
| StatsStream.GetDockerContainerStats | main.go:23-39 | Always returns an error. A failed stats request sends nothing; otherwise it sends one record per complete line, in order, each the decoder's result for that line, and returns "Stream finished" |
| StatsStream.RunMonitor | main.go:197-202 | A monitor's events are its records followed by one done, since an error always comes back |
| StatsStream.MonitorEvents | main.go:197-202 | A monitor's events end in one done for its container; every earlier event is a stats event for that container; a failed request gives the done alone |
| StatsStream.MonitorSendsDoneOnce | main.go:23-39 | A monitor sends exactly one done, as its last event. Before it come only stats events for its container, one per newline of the body (none when the request failed) |
| StatsStream.MonitorRecordPerLine | main.go:29-37 | The k-th event is the decoding of the k-th line |
| Writers.TableTextLines | main.go:126-129 | The table text holds one line per row, in order |
| Writers.Writer.constructor | main.go:114-155 | A new writer of the given kind has written nothing |
| Writers.Writer.WriteS | main.go:126-163 | Table (`TableWriter.WriteS`): appends exactly the fields joined by tabs plus one newline. CSV (`CsvWriter.WriteS`): buffers the row. JSON (`JsonWriter.WriteS`): changes nothing, so JSON output has no header. The writer invariant is kept |
| Writers.Writer.Write | main.go:122-159 | Table and CSV: panics exactly when the ID is shorter than 10; otherwise the same as WriteS of `Strings`. JSON (`JsonWriter.Write`): appends the whole record, whatever the ID's length |
| Writers.Writer.Flush | main.go:165-167 | CSV: the buffered rows move to standard output. The table and JSON writers are unchanged |
| Writers.Writer.VisibleRows | main.go:165-167 | The rows visible on standard output: a prefix of all rows, all of them for the table writer and after a CSV flush |
| EventLoop.Calculate | main.go:220-230 | Succeeds if and only if the container has a name (`Names[0]` panics otherwise). OS, ID, first name and image come from the message; the four metrics are the four CalculateStats functions of the message's OS and stats |
| EventLoop.StatPanic | main.go:220-235 | A stats event panics with NoContainerName exactly when Calculate fails, and does not panic exactly when Calculate succeeds and either the writer is JSON (which never calls `Strings`) or the ID is long enough for `ID[:10]` |
| EventLoop.DoneCountPermutation | main.go:218-246 | The number of done events does not depend on the order the events arrive in |
| EventLoop.MonitorDoneCount | main.go:197-202 | A monitor's events hold exactly one done |
| EventLoop.EveryMonitorCountsDown | main.go:195-202 | In any arrival order, the events of all monitors hold one done per container started |
| EventLoop.Loop.constructor | main.go:195-213 | The counter starts at the container count, no quit is pending, and the writer is the one the format selects |
| EventLoop.Loop.WriteHeader | main.go:215-216 | Afterwards the table and CSV writers show exactly the header row; the JSON writer shows nothing |
| EventLoop.Loop.OnStat | main.go:220-235 | The record is written and flushed, leaving the counter and quit flag unchanged. A missing name or (table, CSV) a short ID panics instead |
| EventLoop.Loop.OnDone | main.go:236-242 | The counter drops by one. A quit is pending if and only if 0 < containers ≤ dones; it is scheduled at most once, never before the counter reaches 0, and never with zero containers |
| EventLoop.Loop.OnQuit | main.go:243-244 | The process exits; nothing else changes |
| EventLoop.Loop.Handle | main.go:218-246 | One `select` turn: the status stays running unless the event is a quit (then it has exited) or a panicking stats event (then it holds that event's panic, NoContainerName or IdTooShort); the rows, records and dones grow by the event's own |
| EventLoop.Loop.Step | main.go:218-246 | Handling the next event extends the loop's progress by that event, including which panic it raised if it panicked |
| EventLoop.Loop.Run | main.go:218-246 | Handles events in order until one ends the process; a panic is that of the last stats event handled. The counter has dropped by the dones handled. A quit is pending if and only if the counter reached 0 from a positive count. The writer got one row or record per non-panicking stats event handled, including those after the quit was scheduled |
| EventLoop.TwoMonitorEventsSchedule | main.go:236-242 | Two monitors, one sending three records and both sending done: the quit follows two dones, so the loop scheduled it |
| EventLoop.TwoMonitorEventsStop | main.go:220-244 | With a named container and a long enough ID, only the final quit stops the table loop |
| EventLoop.TwoMonitorEventsRows | main.go:220-235 | The done and quit events add no row, so the output rows are those of the three records |
| EventLoop.TwoMonitorEventsRowCount | main.go:220-235 | With a named container and a long enough ID, the table or CSV writer gets exactly three rows |

## Left out

- Docker daemon access (`client.NewEnvClient`, `ContainerList`, `ContainerStats`) is network I/O through a library. The stats response (body and OS type) and the container count are inputs. The panics when the client or the container list fails (`main.go:184-193`) are not modelled.
- Goroutines, channels, `select` and signal handling (`main.go:174-183`, `main.go:196-203`) are not modelled. The loop receives its events as one sequence. A signal is a `Quit(Interrupted)` event that may come anywhere. The "No monitors left" goroutine is the quit-pending flag. A `Quit(NoMonitorsLeft)` event is accepted only after that flag is set.
- The race between a signal's quit and the counter's quit is not modelled. Either may come first in the sequence.
- `json.Unmarshal` is an uninterpreted `Decoder`. `json.Encoder` and `encoding/csv` output bytes, including CSV quoting, are not modelled. The model keeps the records and rows handed to them.
- `fmt.Sprintf("%.2f")` and `units.BytesSize` are opaque functions; their output text is not modelled.
- `float64` rounding, including the `uint64` to `float64` conversion, is not modelled; values are reals.
- Write errors on standard output are not modelled. Every `Write`, `WriteS` and `Flush` succeeds, so the `panic(err)` after a failed write (`main.go:231-234`) never fires. The ID-length panic is not an error value: it is the runtime panic of `cs.ID[:10]` (`main.go:63`), raised inside `Write` before it returns.
- `Options.Init` and `flag.Parse` (`main.go:90-96`) are not modelled: the parsed options are an input. `flag.PrintDefaults` output is not modelled.
- `os.Exit` and runtime panics become the loop's `Exited` and `Panicked` statuses.
- `bufio.Reader` buffering and a read error in the middle of the stream are not modelled. The body is the bytes received before the stream ended, and any read error ends the stream just as end-of-file does.
- `Read` and `PreRead` are nanosecond instants on one time line. Monotonic clock readings and time zones are not modelled.
- Render.Strings: counts and slices the ID in characters, where Go's `ID[:10]` (`main.go:63`) counts bytes. The two agree for Docker container IDs, which are ASCII hexadecimal; a non-ASCII ID shorter than 10 characters but at least 10 bytes long would succeed in Go and panic in the model.
- `dockerMonitors` is an unbounded integer; Go's 64-bit `int` cannot wrap with any real container count.
- docker-api.go is not part of this model. It declares a struct that the calculations never use.
- docker-stat-dump.go is not part of this model. It is an older entry point with the same counter loop and a `Printf`.
