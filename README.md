# dox, modelled in Dafny

dox is a small agent that follows the Docker containers running on a host and
sends their resource statistics to InfluxDB. This project models its core:

- **Docker** (`docker.dfy`, docker.go): the registry of monitored containers
  (`doxContainers`) and its reconciliation against the runtime's listing.
  - `pullDoxContainers` registers new ids.
  - `cleanupDoxContainer` deregisters departed ones and asks for their series to be dropped.
  - The module also covers the splitting of a per-container block-I/O accounting file into lines.
  - The registry is a `Tracker` object whose fields the methods update in place.
  - The goroutines the registry starts (stats subscription, stat pusher, series
    drop) are recorded as events in a log.
- **Influx** (`influx.dfy`, influx.go): the metric decoders that turn one stats snapshot into
  a flat point: a series name, an ordered column list and one row of values.
  - An `influx.Series` is a `Series` object whose `Columns` array and row arrays are freshly allocated.
  - The net, mem and cpu decoders fill their slots one by one through `AddColumnValueToPoint`.
  - The dsk decoder and the accounting reader assign the column list and write the row directly.
  - `prepareContainerPoint` dispatches on the family and names the series.
- **Stats** (`stats.dfy`, stats.go): the reader of the kernel's
  `blkio.throttle.*` accounting text (`ioStatToPoint` and its two callers),
  and the older copies of the decoders, which delegate to the one model in Influx.
- **Dox** (`dox.dfy`, dox.go): the legacy cgroup readers `getCpuStats` and
  `getMemoryStats`, which turn cpuacct and memory.stat text into column and value lists.
- **Text** (`text.dfy`): the Go library behaviour the core relies on, and two
  repository helpers. The helpers' Go bodies are not part of this model: each is
  given the contract the core assumes of it, with a body that meets that
  contract, and no proof uses more than the contract.
  - Go library: `strings.Fields`, `strings.Split`, `strings.Trim`, `strings.ToLower`,
    `bufio.ScanLines`, `strconv.ParseInt`, `strconv.Atoi` and `%d` formatting.
  - Repository helpers: `stripChars`, and `sliceIndex`, which returns the first
    matching index or -1.
  - Integer widths are explicit: uint64 sums wrap modulo 2^64, and int64 `+=` wraps
    into [-2^63, 2^63).

The host's files are a parameter `files: map<string, string>` from path to contents. An
absent path is an unreadable file, which `ioutil.ReadFile` returns as empty
contents. A Go index that panics is a `requires`. A `log.Fatalln` is a `fatal` result.

Three facts about the code shape the model:
- `cpuStatsToPoint` allocates ten slots whatever the number of cores (influx.go:164-165).
- A two-field accounting line contributes 0, because its value text is replaced by "0" (stats.go:48-51).
- The accounting sums are signed int64 (stats.go:33).

## Model

| member | source | states |
|---|---|---|
| Docker.Tracker.IsContainerInAPIContainers | docker.go:14-21 | true exactly when some listed container has the id |
| Docker.Tracker.RemoveDoxContainer | docker.go:23-26 | removes exactly that id; the channel counter and the event log are unchanged; the registry stays well formed |
| Docker.Tracker.PullDoxContainers | docker.go:38-57 | the new registry state is the fold `Pull` of `PullOne` over the considered containers (only `containers[0]` in debug mode) and stays well formed |
| Docker.PullFrame | docker.go:43-56 | after a pull the keys are the old keys plus the listed ids; registered entries are untouched; the next channel number only grows; the log only grows |
| Docker.PullNewEntries | docker.go:44-48 | each newly registered id holds a listed container with that id, on a channel no earlier entry had, so channels are never reused |
| Docker.PullWellFormed | docker.go:44-48 | pulling keeps every entry under its own id, with pairwise distinct channels |
| Docker.PullRegistered | docker.go:44 | pulling ids that are all registered changes nothing |
| Docker.PullIdempotent | docker.go:43-56 | pulling the same listing a second time changes nothing |
| Docker.PullStartsOncePerNewId | docker.go:44-54 | a newly registered id gets exactly one subscription and one pusher; any other id gets none; nothing is dropped |
| Docker.Tracker.CleanupDoxContainer | docker.go:28-36 | the registry keeps exactly the listed ids' entries; each removed id gets one drop request, for the stripped first name of its entry, and the drop order visits each removed id once |
| Docker.RetainListed | docker.go:29-30 | after cleanup the keys are the old keys that are listed, and the kept entries are unchanged |
| Docker.Tracker.UpdateDoxContainersOnce | docker.go:65-66 | one tick is a pull followed by a cleanup; the state is the retained pull, and the log is the pull's log followed by one drop per departed id |
| Docker.SyncMatchesListing | docker.go:65-66 | with debug off, a tick leaves exactly the listed ids registered |
| Docker.DebugSyncTracksFirstOnly | docker.go:39-42 | in debug mode a tick registers nothing beyond the first listed container |
| Docker.SecondSyncChangesNothing | docker.go:65-66 | a second tick with the same listing registers nothing and drops nothing |
| Docker.ScopePathInjective | docker.go:81 | different containers' accounting files have different paths |
| Docker.IOStatLinesOfTerminated | docker.go:86-87 | a file of newline-terminated lines yields exactly those lines |
| Docker.IOStatLinesCover | docker.go:86-87 | the lines, plus the dropped last piece, joined by newlines, are the file |
| Docker.DockerIOStatFileToSlice | docker.go:80-88 | the lines of the container's accounting file under `<path>/docker-<id>.scope/`, none of which holds a newline; an unreadable file yields no lines |
| Influx.Series.constructor | influx.go:30-32 | a new series has only its name: no columns and no rows |
| Influx.AddColumnValueToPoint | influx.go:47-52 | writes the column and the value at `index`, leaves every other slot as it was, and returns `index + 1` |
| Influx.NetStatsToPoint | influx.go:104-118 | fresh arrays: the 8 network columns, each holding its counter |
| Influx.NetColumnsHoldTheirCounters | influx.go:109-116 | the 8 network columns are distinct, and each holds the counter it is named after |
| Influx.MemStatsToPoint | influx.go:120-159 | fresh arrays: the 33 memory columns in source order with their counters |
| Influx.MemColumnsHoldTheirCounters | influx.go:125-157 | each of the 33 columns holds the counter it is named after; slot 31 is "filcnt" (the failure count) and slot 32 is "limit" |
| Influx.MemColumnsDistinct | influx.go:125-157 | the 33 memory columns are pairwise distinct |
| Influx.CpuStatsToPoint | influx.go:161-173 | fresh arrays of ten slots for at most 8 cores: the total, then the cores in order, then the system usage, then empty slots |
| Influx.CpuSlots | influx.go:163-171 | slot 0 holds the total; slot 1+i holds `cpu_i_usage` with core i's usage; slot 1+n holds the system usage; slots 2+n to 9 stay empty |
| Influx.CpuSlotsDetermine | influx.go:163-171 | the converse: ten slots with exactly that layout are the columns and the row of the snapshot, so the layout fixes the whole point |
| Influx.CpuColumnsDistinct | influx.go:166-171 | the named cpu columns are pairwise distinct |
| Influx.CpuColumnsDiffer | influx.go:169 | different cores get different column names |
| Influx.SumDskStats | influx.go:54-72 | slot k is the uint64-wrapped sum of the values of exactly the entries whose Op is the k-th of Read, Write, Sync, Async, Total |
| Influx.SumStep | influx.go:56-69 | one more entry adds its value, with wrap-around, to the total of its own operation and leaves the others |
| Influx.AddUint64Mod | influx.go:59 | adding to a wrapped sum with `+=` gives the wrapped exact sum |
| Influx.OpTotalAppend | influx.go:56-70 | an operation's total over two entry lists is the sum of their totals |
| Influx.OpTotalIgnoresOtherOps | influx.go:57-69 | an entry whose Op is not exactly the operation, e.g. "read" for "Read", adds nothing to it |
| Influx.DskStatsToPoint | influx.go:74-102 | fresh arrays: columns read, write, sync, async, total, and the five sums of the family's entry list |
| Influx.DskRowSums | influx.go:79-101 | each dsk slot is the wrapped sum for its operation; a family that names no entry list yields five zeros |
| Influx.PrepareContainerPoint | influx.go:29-45 | a fresh series named `<stripped first name>.<family>`, filled by the family's decoder |
| Influx.DskFamilies | influx.go:41 | a family goes to the disk decoder exactly when it is "dsk" or starts with "dsk." |
| Influx.SplitHead | influx.go:41 | the first piece of `strings.Split` is the longest prefix without the separator |
| Influx.ContainerPointShape | influx.go:29-45 | the name is `<stripped name>.<family>`; each row matches the columns; cpu, mem, net and dsk points have one row of 10, 33, 8 or 5 values; any other family has no columns and no rows |
| Stats.LineContribution | stats.go:43-56 | one accounting line adds to the column its lower-cased operation field names, or to slot -1 (the index panic) when that names none; a two-field line adds 0; a line with any other number of fields names no column |
| Stats.SumIoStat | stats.go:33-58 | the five int64 values are the wrapped slot totals of the lines' contributions |
| Stats.IoStatToPoint | stats.go:32-63 | fresh arrays: columns read, write, sync, async, total, and one row of the five int64 sums |
| Stats.DskIOServiceBytesStatsToPoint | stats.go:20-24 | the accounting point of the lines of the container's blkio.throttle.io_service_bytes |
| Stats.DskIOServicedStatsToPoint | stats.go:26-30 | the accounting point of the lines of the container's blkio.throttle.io_serviced |
| Stats.SumsStep | stats.go:57 | one more line adds its value, with int64 wrap-around, to its own slot only |
| Stats.SumsEmpty | stats.go:33 | no contributions give five zeros |
| Stats.EmptyAccountingIsZero | stats.go:33-61 | no lines give a row of five zeros |
| Stats.UnreadableAccountingIsZero | stats.go:20-24 | an unreadable accounting file gives five zeros |
| Stats.ThreeFieldLine | stats.go:45-47 | a line "<device> <op> <x>" adds exactly x to the column named by op in any letter case |
| Stats.TwoFieldLine | stats.go:48-51 | a line "<op> <x>" adds 0 to op's column, whatever x is |
| Stats.KnownLines | stats.go:43-57 | a line can be accumulated exactly when it has three fields with a known operation in the second, or two fields with a known operation in the first |
| Stats.MalformedValueAddsZero | stats.go:52-55 | a value that is not a number adds 0 |
| Stats.SlotTotalAppend | stats.go:57 | slot totals add up over concatenated contribution lists |
| Stats.SlotTotalOtherSlots | stats.go:56-57 | a slot only counts the contributions made to it |
| Stats.AddColumnValueToPoint | stats.go:13-18 | the same write-and-advance contract as influx.go's copy |
| Stats.NetStatsToPoint | stats.go:65-79 | the same 8 columns and counters as influx.go's copy |
| Stats.MemStatsToPoint | stats.go:81-120 | the same 33 columns and counters as influx.go's copy |
| Stats.CpuStatsToPoint | stats.go:122-134 | the same ten-slot allocation and placement as influx.go's copy |
| Dox.GetCpuStats | dox.go:98-124 | fatal exactly when cpuacct.usage is unreadable; otherwise the partials are the trimmed total and the fields of cpuacct.usage_percpu, the columns are "cpu_usage_total" and one "cpu_usage_i" per partial, and the values are the Atoi of each partial plus one nil slot |
| Dox.ConvertCpuPartials | dox.go:115-121 | the loop over the partials: one "cpu_usage_i" column per partial after "cpu_usage_total", and a value slice one longer than the partials holding each partial's Atoi value with the last slot left nil |
| Dox.CpuStatsLayout | dox.go:115-121 | the columns and values have len(partials)+1 entries; columns and values line up; the last value is nil |
| Dox.CpuPartialsOfAccounting | dox.go:107-114 | cpuacct text as the kernel writes it splits into the total, then each core's number |
| Dox.FormattedCpuValues | dox.go:117-119 | printed numbers convert back exactly, in order, with the nil slot last |
| Dox.CpuAccountingRoundTrip | dox.go:107-121 | reading back cpuacct text of a total and per-core usages gives exactly those numbers, in core order, then nil |
| Dox.FieldsOfFormatAll | dox.go:114 | the fields of blank-separated printed numbers are those numbers' texts |
| Dox.TrimFormatted | dox.go:107 | trimming the newline off a printed number gives the number's text |
| Dox.GetMemoryStats | dox.go:126-149 | one column and one value per memory.stat line: its first field, and the Atoi of its second (0 when that is not a number) |
| Dox.MemoryStatLineFields | dox.go:139-141 | a "<name> <value>" line has exactly those two fields, and the value reads back |
| Dox.MemoryStatRoundTrip | dox.go:135-146 | a memory.stat file of "<name> <value>" lines yields exactly those names and values, in order |
| Dox.UnreadableMemoryStatIsEmpty | dox.go:130-138 | an unreadable memory.stat gives no columns and no values |
| Dox.StatPathsDiffer | dox.go:102-129 | the two cpuacct files of a container have different paths, and different containers' memory.stat files have different paths |
| Text.StripChars | influx.go:31 | the result has no character of the cut set; a string without such characters is unchanged |
| Text.SliceIndex | stats.go:56 | the first index holding the value, or -1 exactly when no element holds it |
| Text.FieldsOfJoinSpace | stats.go:43 | blank-free words joined by blanks split back into those words |
| Text.JoinSplit | docker.go:86 | joining the pieces of `strings.Split` restores the text |
| Text.SplitTerminated | docker.go:86 | splitting newline-terminated lines gives the lines and one empty last piece |
| Text.ToLower | stats.go:46 | same length, each character lower-cased |
| Text.ParseInt64 | stats.go:52-55 | the value is in int64 range, and 0 on a syntax error |
| Text.ParseFormatInt64 | stats.go:52 | parsing a printed int64 gives it back without error |
| Text.Atoi | dox.go:118 | 0 when the text is not a number |
| Text.AddUint64 | influx.go:59 | the exact sum when it fits, otherwise the sum minus 2^64 |
| Text.AddInt64Wraps | stats.go:57 | int64 `+=` on a wrapped total gives the wrapped exact total |
| Text.ScanLinesTerminated | dox.go:135-138 | scanning newline-terminated lines yields exactly those lines |
| Text.TrimTrailingNewline | dox.go:107 | trimming newlines off a line plus "\n" gives the line |

## Left out

- Goroutine orchestration is not modelled. This covers `runInfluxStatPusher`, the `go` launches, `routineUp`/`routinesDown`, `daemonFlag` and the channel receives (influx.go:13-23). A launch is an `Event` appended to the registry's log.
- `pingInfluxDB` and `getInfluxDBClient` (influx.go:182-209) are network health checks. "ping ok" is logged even after an error, and there is no retry budget.
- `pushContainerPoint` and `InfluxDBWritePoints` (influx.go:175-180, dox.go:83-95) are writes into the InfluxDB client library.
- The endless list/sleep loop of `updateDoxContainers` and `runDockerStatCollector` (docker.go:59-78) are Docker API calls and timers. One tick is `Docker.Tracker.UpdateDoxContainersOnce`, with the listing as a parameter.
- `main`, `readDoxConfig` and `influxDBConnect` (dox.go:26-81) are configuration and connection I/O.
- File reads are a map from path to contents. `ioutil.ReadFile` and `os.Open` on a missing path read as empty contents.
- `dropContainerSeries` is a recorded `DropSeries` event. Its body is not part of this model.
- Logging is left out. A `log.Fatalln` is modelled only as the fatal result of `Dox.GetCpuStats`.
- Docker.Tracker.CleanupDoxContainer: Go ranges over the map in an unspecified order. The model visits the initial keys in an arbitrary order and returns that order as a ghost out-parameter.
- Channels are numbers handed out once; `make(chan *docker.Stats)` has no other behaviour in the model.
- Influx.Series: `Points` is a sequence of row arrays. The decoders always write row 0.
- Influx.MemStatsToPoint: the source makes the 33 `addColumnValueToPoint` calls one after the other. The model makes the same calls, in the same order, from a loop over the column table.
- Stats.IoStatToPoint: the per-line parsing (fields, lower-casing, `strconv.ParseInt`, `sliceIndex`) is the function `LineContribution`, applied in the loop. The accumulation loop is the method `Stats.SumIoStat`.
- Stats.IoStatToPoint requires every line to name one of the five columns. Go panics on the index -1 otherwise.
- Docker.Tracker.CleanupDoxContainer and Docker.Tracker.UpdateDoxContainersOnce require every registered id missing from the listing to have a name. Go panics on `Names[0]` otherwise (docker.go:32).
- Docker.Tracker.PullDoxContainers requires a non-empty listing in debug mode. Go panics on `containers[0]` otherwise (docker.go:40).
- Docker.Tracker.UpdateDoxContainersOnce requires a non-empty listing in debug mode, for the same `containers[0]` (docker.go:40).
- Influx.PrepareContainerPoint requires the container to have a name. Go panics on `Names[0]` otherwise (influx.go:31).
- Influx.CpuStatsToPoint requires at most 8 cores. Go panics past the ten slots otherwise.
- Dox.GetMemoryStats requires every line to have two fields. Go panics otherwise.
- Strings are sequences of Unicode code points, not Go's byte strings. `Fields`, `Split`, `Trim` and `ToLower` are stated over characters, so invalid UTF-8 and multi-byte encodings are not modelled.
- Text.ToLower: lower-cases ASCII letters only. Non-ASCII letters are left as they are.
- Text.ScanLines: does not model bufio's 64 KiB limit on a single line.
- Text.Atoi: models Go's 64-bit `int`.
