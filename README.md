# powertop: a verified model of the view models, the collector and the scheduler

powertop is a terminal system monitor. A background task refreshes a system-information
provider about once a second. It assembles one snapshot (`DataCollected`: CPU, processes,
disks and networks, each present or absent on its own) and sends it down a channel. An input
task turns terminal input and two timers into events on the same channel. Each view component
(CPU, memory, network, process table, disk table) folds the snapshots it receives into its
own state. A separate script, `collect_todos`, walks the source tree and writes a report of
every `TODO` line.

This project models these parts in Dafny:

- the view models as classes whose methods change their fields in place: bounded windows for
  memory and network, a growing map of series for CPU, replace-on-update lists for the tables;
- the collector as a class whose provider state and call log record the refresh-then-extract
  order;
- the scheduler's input and collection loops as methods over schedules of wake-ups, and
  `abort_task`, `start` and `stop` over task handles and observation sequences;
- the TODO extractor as loops and a recursive walk over an in-memory directory tree;
- directory precedence, version text and memory percentages as pure functions.

Each module corresponds to one source file. `Wrappers` (Option/Result), `SysData` (the
collected records), `Decimal` (decimal rendering of unsigned integers), `Strings` (`find`,
`trim`), `Window` (the bounded-window push) and `Actions` (the one action the core handles)
are shared.

## Model

| member | source | states |
|---|---|---|
| Memory.PercentageAsWritten | src/data_services/memory.rs:17-21 | the division as written: NaN exactly when the total is 0, otherwise used/total times 100, within [0, 100] |
| Memory.UsagePercentagesAsWritten | src/data_services/memory.rs:16-24 | each figure is NaN exactly when its total is 0; otherwise it lies in [0, 100] and times its total equals used times 100 |
| Memory.SwaplessHostGivesNaN | src/data_services/memory.rs:20-21 | a host with total_swap 0 gets a NaN swap figure while its RAM figure is 75 |
| Memory.Percentage | src/data_services/memory.rs:17-21 | with the missing guard added: in [0, 100], 0 for a zero total, equal to the as-written figure whenever the total is positive, 0 when nothing is used, 100 when nothing is free |
| Memory.UsagePercentages | src/data_services/memory.rs:16-24 | both figures lie in [0, 100] and agree with the source whenever their total is positive |
| Tui.RefreshedTimesClosedForm | src/data_services/data_collector.rs:80-91 | n refreshes add n to the network, CPU, process, disk-list and disk counts and leave the network list as it was, since its `refresh_list` is commented out |
| Collector.UpdateInfo | src/data_services/data_collector.rs:104-119 | Some(v) exactly when the extractor returns Ok(v), None on Err |
| Collector.CollectIsolation | src/data_services/data_collector.rs:70-77 | each snapshot field depends on its own extractor only |
| Collector.ProcessFailureIsolated | src/data_services/data_collector.rs:73-76 | a failing process extractor leaves processes absent and each other field filled whenever its extractor succeeds |
| Collector.DataCollector.constructor | src/data_services/data_collector.rs:27-35 | starts from the default snapshot and the default provider: disk and network lists refreshed once by `new_with_refreshed_list`, no other part refreshed |
| Collector.DataCollector.RefreshSysinfo | src/data_services/data_collector.rs:80-91 | the provider is refreshed once, the calls are logged in source order, the snapshot is untouched |
| Collector.DataCollector.UpdateData | src/data_services/data_collector.rs:70-77 | refresh first, then all four fields overwritten from the refreshed provider; every refresh call precedes every extraction |
| Window.PushValueShape | src/tui/components/network.rs:60-64 | below capacity a push appends the value; at capacity it drops exactly the front entry; the length never exceeds capacity; the new value is at the back |
| Window.PushPointShape | src/tui/components/memory.rs:63-66 | the same for point windows; the new point's x is the number of entries before it and the retained entries are unchanged |
| Window.FullWindowRepeatsLastX | src/tui/components/memory.rs:63-66 | retained points keep their x, so once a full window gets another push the last two points share x = capacity - 1 |
| Window.PushAllLength | src/tui/components/network.rs:60-71 | after N value pushes the length is min(old length + N, capacity) and the last value pushed is at the back |
| Window.PushAllBelowCapacity | src/tui/components/network.rs:60-71 | pushes that never fill the window just append |
| Window.PushAllPointsLength | src/tui/components/memory.rs:63-71 | after N point pushes the length is min(old length + N, capacity) and the back point is (length - 1, last value pushed) |
| Window.PushAllPointsFromEmpty | src/tui/components/memory.rs:63-71 | up to capacity, pushes into an empty point window give the points (0, v0), (1, v1), ... in push order |
| MemoryView.MemoryComponent.constructor | src/tui/components/memory.rs:42-53 | both windows empty, totals 0 |
| MemoryView.MemoryComponent.UpdateDataStats | src/tui/components/memory.rs:55-72 | totals overwritten; RAM and swap windows pushed independently with their percentage; windows stay within 10 |
| MemoryView.MemoryComponent.Update | src/tui/components/memory.rs:76-86 | only a data update carrying memory data changes state; it then acts as UpdateDataStats; returns no action |
| NetworkView.SumAppend | src/tui/components/network.rs:59-74 | the sum of a concatenation is the sum of the sums |
| NetworkView.ReceivedSumExample | src/tui/components/network.rs:59-64 | deltas 5, 10 and 0 sum to the window entry 15 |
| NetworkView.ReceivedSumSplits | src/tui/components/network.rs:59-64 | the received sum splits over any partition of the interface list |
| NetworkView.NetworkComponent.constructor | src/tui/components/network.rs:40-53 | empty windows, zero totals |
| NetworkView.NetworkComponent.UpdateDataStats | src/tui/components/network.rs:55-75 | received and transmitted windows each pushed with the sum of their deltas; the totals replaced by the sums of the per-interface totals; windows stay within 25 |
| NetworkView.NetworkComponent.Update | src/tui/components/network.rs:82-92 | only a data update carrying network data changes state; returns no action |
| CpuView.RealMax | src/tui/components/cpu.rs:99-100 | f64::max on finite values: the larger of the two |
| CpuView.ApplyReadingsGroup | src/tui/components/cpu.rs:83-97 | for every core: it has a group afterwards exactly when it had one or was reported; a known core's group gains (x, u) per reading at the back; a new core starts with (0, first usage) |
| CpuView.SingleReading | src/tui/components/cpu.rs:86-96 | a core reported once gains exactly (points, usage), or a new group [(0, usage)] |
| CpuView.GroupsOnlyGrow | src/tui/components/cpu.rs:86-96 | every old group is a prefix of its new group: nothing is evicted |
| CpuView.ApplyReadingsPreserves | src/tui/components/cpu.rs:83-97 | groups stay non-empty and bounded by the running maximum and by points |
| CpuView.MaxOfBounds | src/tui/components/cpu.rs:72-84 | the update's maximum is at least 0 and every usage, and is 0 or one of them |
| CpuView.LexLessTotal | src/tui/components/cpu.rs:110 | string order is total |
| CpuView.LeastExists | src/tui/components/cpu.rs:110 | a non-empty key set has a least key |
| CpuView.SortedKeys | src/tui/components/cpu.rs:105-110 | the keys in strictly ascending order, each exactly once |
| CpuView.BarChartDatasets | src/tui/components/cpu.rs:105-118 | one bar per core, ascending by name, each showing its group's newest usage; the todo! branch is unreachable |
| CpuView.XLowerBound | src/tui/components/cpu.rs:204-205 | points - 50 saturating at 0: the axis spans min(points, 50) |
| CpuView.Cpu.constructor | src/tui/components/cpu.rs:58-66 | no groups, zero points and maxima, bar chart selected |
| CpuView.Cpu.UpdateDataStats | src/tui/components/cpu.rs:68-103 | points + 1 however many cores are reported; groups are ApplyReadings at the new points; max_usage is the max of the old value and the update's; max_x == points |
| CpuView.Cpu.Update | src/tui/components/cpu.rs:167-178 | anything but a data update carrying CPU data leaves the component unchanged; such an update acts as UpdateDataStats: points + 1, groups ApplyReadings, max_usage raised, max_x == points, min_x and the graph type kept; returns no action |
| ProcessTableView.ProcessRow | src/tui/components/process_table.rs:22-35 | 5 cells, as many as headers and widths; decimal pid, parent or "-", name and status verbatim |
| ProcessTableView.ProcessRowReadsBack | src/tui/components/process_table.rs:24-29 | the pid and parent cells parse back to their values; "-" exactly when there is no parent |
| ProcessTableView.ProcessTable.UpdateDataStats | src/tui/components/process_table.rs:66-68 | the new list replaces the old |
| ProcessTableView.ProcessTable.Update | src/tui/components/process_table.rs:72-82 | replaced on a data update with Some, kept otherwise; returns no action |
| DiskTableView.DiskRow | src/tui/components/disks.rs:22-34 | 7 cells, as many as headers and widths; name, kind, file system and mount verbatim; sizes in decimal; removable as true/false |
| DiskTableView.DiskRowReadsBack | src/tui/components/disks.rs:28-30 | the size cells parse back to the sizes; the flag cell is "true" exactly when removable |
| DiskTableView.DiskTable.UpdateDataStats | src/tui/components/disks.rs:66-68 | the new list replaces the old |
| DiskTableView.DiskTable.Update | src/tui/components/disks.rs:72-82 | replaced on a data update with Some, kept otherwise; returns no action |
| Configuration.GetDataDir | src/configuration/configuration.rs:25-34 | the override, else the project data-local directory, else ./.data |
| Configuration.GetConfigDir | src/configuration/configuration.rs:36-45 | the override, else the project config-local directory, else ./.config |
| Configuration.DirsFollowPrecedence | src/configuration/configuration.rs:25-45 | both lookups equal one first-present rule over (override, project directory, fallback) |
| Configuration.Version | src/configuration/configuration.rs:47-63 | the text starts with the version message, holds GetConfigDir's result before GetDataDir's, and ends with GetDataDir's result |
| Configuration.VersionFallbacks | src/configuration/configuration.rs:47-63 | with no overrides and no project directories the text names ./.config before ./.data and ends with ./.data |
| Decimal.NatToString | src/tui/components/process_table.rs:25-29 | digits only, never empty, no leading zero except "0" itself |
| Decimal.ParseNatToString | src/tui/components/disks.rs:28-29 | parsing a rendered number gives the number back |
| Decimal.NatToStringInjective | src/tui/components/disks.rs:28-29 | distinct numbers render differently |
| Tui.TranslateInput | src/tui/ui.rs:148-177 | end of stream gives nothing, a read error gives Error, a key gives an event exactly when it is a press |
| Tui.TranslateRoundTrip | src/tui/ui.rs:149-172 | every translated event maps back to its terminal event, and every input event is produced from its terminal event: payloads are kept one-to-one |
| Tui.LoopEventsAppend | src/tui/ui.rs:138-186 | events of one loop are sent in the order they are generated |
| Tui.CancelEndsLoop | src/tui/ui.rs:144-146 | nothing is sent after the cancellation branch fires |
| Tui.TickBeforeRender | src/tui/ui.rs:179-184 | a tick that fires before a render is received first |
| Tui.InputEventLoop | src/tui/ui.rs:133-187 | Init, then the events of every wake-up up to the first cancellation |
| Tui.CollectionEventsAt | src/tui/ui.rs:196-213 | the k-th snapshot sent is assembled from the provider after exactly k + 1 refreshes, so no field survives from an earlier cycle |
| Tui.CollectionEventsBound | src/tui/ui.rs:196-209 | at most one event per collection and at most one collection per iteration |
| Tui.DataCollectionLoop | src/tui/ui.rs:190-215 | the events sent are CollectionEvents (none after a cancelled check or a failed send); the collector's snapshot is back at default; the provider was refreshed once per collection |
| Tui.CollectionRefreshCounts | src/tui/ui.rs:190-215 | after n collections from the default provider, every part has been refreshed n times, the disk list n + 1 times and the network list once |
| Tui.FirstFinished | src/tui/ui.rs:252-255 | the first check that sees the task finished, with every earlier check unfinished |
| Tui.TimeoutBound | src/tui/ui.rs:50-53 | with the shipped constants the error names 10 ms |
| Tui.AbortTask | src/tui/ui.rs:251-265 | Ok exactly when some check sees the task finished; otherwise Timeout(max_retries ms); at most one abort, at attempt max_retries / 2; one sleep per unfinished check; a task finished at the first check returns Ok with no abort and no sleep |
| Tui.CancellationToken.Cancel | src/tui/ui.rs:296-298 | the token is cancelled |
| Tui.TaskHandle.Abort | src/tui/ui.rs:258 | the abort is recorded |
| Tui.Tui.constructor | src/tui/ui.rs:73-95 | an uncancelled token and two placeholder tasks |
| Tui.Tui.Cancel | src/tui/ui.rs:296-298 | the current token is cancelled |
| Tui.Tui.Start | src/tui/ui.rs:117-126 | the old token is cancelled and a fresh uncancelled one installed before the data task, then the input task, are spawned observing it |
| Tui.Tui.Stop | src/tui/ui.rs:225-235 | cancel, then wait on the input task; if that wait fails its error is returned and the data task is neither waited on nor aborted; otherwise the data task's outcome is returned; each waited task is aborted and slept on exactly as AbortTask says; two tasks finished at their first check give Ok with no sleep |
| Strings.Find | scripts/collect_todos.rs:56 | the position of the first occurrence, or None when there is none |
| Strings.FindSucceedsIffOccurs | scripts/collect_todos.rs:56 | find succeeds exactly when the pattern occurs |
| Strings.TrimSpec | scripts/collect_todos.rs:57 | trim leaves the part between the leading and the trailing whitespace, and neither of its ends is whitespace |
| Strings.TrimKeepsPrefix | scripts/collect_todos.rs:57 | trimming a string that starts with "TODO" keeps that start |
| Todos.DisplayJoin | scripts/collect_todos.rs:25 | a joined path displays as the directory, "/", the name |
| Todos.ExtensionIsRs | scripts/collect_todos.rs:31 | the extension is "rs" exactly when the name is longer than ".rs" and ends with it |
| Todos.AsWrittenNeverPrunes | scripts/collect_todos.rs:45-47 | as written, no path below the root "." counts as a cargo dependency, not even ./target |
| Todos.CargoDependencyUnderRoot | scripts/collect_todos.rs:45-47 | corrected: below ".", a path is a cargo dependency exactly when its first component is target |
| Todos.LineTodos | scripts/collect_todos.rs:56-59 | at most one entry per line, one exactly when the line holds "TODO"; its second part is the file path |
| Todos.LineTodosText | scripts/collect_todos.rs:54-58 | the entry text is path:N: and the trimmed rest from the first "TODO", which still starts with "TODO"; N parses back to the 1-based line number |
| Todos.LinesTodosPaths | scripts/collect_todos.rs:58 | every entry of a file carries its displayed path |
| Todos.LinesTodosFails | scripts/collect_todos.rs:55 | a file fails exactly when one of its lines fails, with the first such line's error |
| Todos.LinesTodosErrorPersists | scripts/collect_todos.rs:55 | once a line fails, later lines do not change the result |
| Todos.TodoIndicesExact | scripts/collect_todos.rs:54-59 | the lines holding "TODO" are listed exactly once each, in increasing order |
| Todos.LinesTodosCount | scripts/collect_todos.rs:54-60 | one entry per line holding "TODO" |
| Todos.LinesTodosInOrder | scripts/collect_todos.rs:54-60 | the k-th entry is the one of the k-th line holding "TODO": entries are in line order |
| Todos.ExtractTodos | scripts/collect_todos.rs:49-63 | the loop returns FileTodos: an open error, the first line error, or the entries of all lines |
| Todos.FileTodosFromRustFile | scripts/collect_todos.rs:31-38 | entries of a file named *.rs carry a path that ends with .rs |
| Todos.Walk | scripts/collect_todos.rs:20-43 | for either dependency test, every reported entry comes from a file whose path ends with .rs |
| Todos.WalkErrorPersists | scripts/collect_todos.rs:23-24 | once the walk fails, later entries do not change the result |
| Todos.WalkSkips | scripts/collect_todos.rs:27-35 | a file that is not .rs, the script itself, a directory the test calls a cargo dependency and any other entry contribute nothing |
| Todos.RootTargetSkipped | scripts/collect_todos.rs:27 | with the corrected test, ./target contributes nothing whatever it holds |
| Todos.RootTargetDescendedAsWritten | scripts/collect_todos.rs:27-30 | with the test as written, ./target is descended and its entries are appended like any directory's |
| Todos.TargetTodoReportedAsWritten | scripts/collect_todos.rs:27-30 | a TODO in ./target/a.rs is reported by the walk as written and not by the corrected walk |
| Todos.CollectTodos | scripts/collect_todos.rs:20-43 | the recursive loop returns Walk over the whole listing, for the dependency test it is given |
| Todos.CollectEntry | scripts/collect_todos.rs:24-39 | one iteration extends the accumulator by that entry's contribution |
| Todos.WriteTodosToFile | scripts/collect_todos.rs:65-74 | the header line, then one "todo path" line per entry, in order |
| Todos.CollectProjectTodos | scripts/collect_todos.rs:5-18 | the report for the walk from "." with the test as written: fails exactly when the walk fails, otherwise the header and one line per entry in walk order |

## Left out

- Terminal mode handling: `enter`, `exit`, `suspend`, `resume`, `Drop`, raw mode, the
  alternate screen and SIGTSTP. These are terminal I/O and signals.
- Concurrency: the `select!` race, `spawn`, the channel and the event stream. The input
  loop takes a schedule of wake-ups. The collection loop takes, per iteration, whether the
  token was cancelled and whether the send succeeded. `abort_task` takes the sequence of
  `is_finished` answers. Task handles record how often `abort` was called.
- Timing: the sleeps are counted, not performed. The same goes for the 1000 ms collection
  delay and the `Instant` fields.
- The `tick_rate`, `frame_rate`, `mouse` and `paste` builders, and the tick and frame
  delays computed from `f64`.
- Tui.InputEventLoop: the send `unwrap()` panics when the receiver has gone. The model
  assumes every send succeeds.
- Rendering: every `draw`, the line-chart datasets, labels, colours and layout. So is float
  formatting: the process table's `{:.3}` CPU cell is a `formatUsage` parameter, and the
  bar chart keeps the real usage where the source casts it with `as u64`.
- f64 is modelled as `real`. `f64::max` is modelled on finite values. NaN is modelled only in
  the as-written percentage (`Memory.Float`).
- MemoryView.MemoryComponent.UpdateDataStats: pushes the corrected percentage
  (`Memory.UsagePercentages`, see Findings). For a zero total the source pushes a NaN figure;
  the model pushes 0.0 instead. The windows hold `real`, so they cannot hold NaN.
- MemoryView.MemoryComponent.Update: the same 0.0-for-NaN substitution, through
  UpdateDataStats.
- System-information extraction (`get_cpu_info`, `get_process_info`, `get_disk_info`,
  `get_network_info`, `get_memory_info`). The extractors are function parameters over an
  abstract provider state. Logging is not modelled.
- The `collected_data` fields of the CPU and network components are never read in the
  core, so they are not modelled.
- MemoryView.MemoryComponent.Update: its source reads a `memory` field that `DataCollected`
  does not have, so the memory data is a separate parameter.
- NetworkView.NetworkComponent.UpdateDataStats: requires the four `u64` sums to fit (`SumsFit`),
  where the source's `sum()` would panic or wrap.
- Tui.Tui.Stop: requires the two task handles to be different objects. In the source they
  are two owned `JoinHandle` fields, which cannot alias; `Tui.Tui.constructor` and
  `Tui.Tui.Start` promise it.
- Todos.WriteTodosToFile: `File::create` and `writeln!` failures are not modelled. The
  method returns the lines written, and the output path is not modelled.
- Todos.Walk: the directory tree is a value. Symlinks, `is_dir` and `is_file` on racing
  file systems, and non-UTF-8 names are not modelled. `Display` joins components with
  "/". Line content is characters, not bytes. The walk takes the dependency test as a
  parameter (`Todos.Pruning`): `Todos.CollectProjectTodos` uses the test as written, as the
  script does; the corrected test is stated beside it (see Findings).
- In these places the model follows the code rather than a looser reading:
  - memory windows do not renumber retained entries (`Window.FullWindowRepeatsLastX`);
  - network totals are overwritten, not accumulated;
  - CPU groups are never evicted.

## Findings

| source | as written | input that shows it | evidently intended | confidence | as-written member | corrected member |
|---|---|---|---|---|---|---|
| src/data_services/memory.rs:20-21 | the swap percentage divides by `total_swap` with no zero guard | a host without swap: free_ram 1024, total_ram 4096, free_swap 0, total_swap 0 gives a NaN swap figure | 0 % when there is no swap | high, not executed | Memory.SwaplessHostGivesNaN | Memory.UsagePercentages |
| scripts/collect_todos.rs:45-47 | `path.starts_with("target")` compares whole components; every path built from the root "." starts with the `.` component | the entry `./target` (and everything under it) is descended and scanned | skip the `target` directory at the project root | high, not executed | Todos.TargetTodoReportedAsWritten | Todos.RootTargetSkipped |
