# Performance Profiler — a Dafny model

This project models the sampling core of the Performance Profiler desktop
application. You pick a process name, and a timer samples every live process
that carries it. Each tick adds up the group's CPU time, working set,
private memory, thread count, disk rate and a netstat-based network score.
The CPU delta since the previous tick becomes a percentage. The sample also
carries a static CPU description read once at start. The service keeps the
newest 100 samples and hands each one to the window. The window appends it
to its collected list and pushes four figures onto the live charts. The
collected samples, or a description of the machine, can be exported as CSV.

Modules, one per source file, plus three small shared ones:

- `Common`: `Option`, and `Float`, a C# float that may be infinite or NaN.
- `Text`: the .NET string operations the code relies on.
- `Clock`: `DateTime` as a validated calendar time with ticks.
- `ProfilingDataStats`, `PerformanceHelpers`, `Chart`, `Profiler`, `Export`
  and `Window`: one each for `ProfilingDataStats.cs`,
  `PerformanceHelpers.cs`, `ChartDataManager.cs`, `ProfilerService.cs`,
  `ExportService.cs` and `MainWindow.xaml.cs`.

State the source mutates in place is a class:

- `Chart.Series` and `Chart.ChartDataManager`;
- `Profiler.ProfilerService`, the static fields of `ProfilerService`;
- `PerformanceHelpers.DiskCounterCache`, the static `_diskCounter`;
- `Window.MainWindow`.

Loops become methods with invariants. Each such method is tied to a
specification function: `Profiler.Fold` for the per-process loop,
`Profiler.Populate` for the WMI loops, `PerformanceHelpers.SumReadable` for
the collectors. Lemmas then state what the source promises about those
functions.

Everything the program reads from the operating system is an input:

- a `ProcessReading` per process, holding each property read or its failure;
- the WMI rows;
- the netstat output;
- the two clock reads;
- the processor and process counts;
- the GC collection counts;
- whether the save dialog was accepted.

Some behaviours of the code that a reader might not expect:

- **Chart size.** A chart series settles at 61 points, not 60. The length
  test `Count > 60` runs before the append.
- **Baseline on start.** `StartGroup` does not reset the CPU baseline or the
  buffer. A restart computes its first percentage against the baseline of
  the previous session.
- **First tick.** The first tick of the process lifetime records the
  baseline and emits nothing, rather than emitting a 0 % sample.
- **GPU fields.** They are never assigned and stay 0. The process id is
  never assigned either.
- **Every figure, every tick.** Each tick measures every figure; nothing
  switches a metric off. No lock guards the shared state.
- **Stop.** `Stop` does not wait for a running tick.
- **Stray timers.** A second `StartGroup` replaces the timer without
  stopping the old one. The model counts such stray timers.

## Model

| member | source | states |
|---|---|---|
| Chart.Pushed | ChartDataManager.cs:22-27 | one update makes the value the newest point and grows the series by one, except that a series already over 60 points keeps its length |
| Chart.PushedKeepsOlder | ChartDataManager.cs:22-27 | the points before the new one are the old points in order, less only the oldest and only when more than 60 were held |
| Chart.PushAllBounded | ChartDataManager.cs:12-27 | a series that starts within 61 points stays within 61 whatever is pushed |
| Chart.PushAllFromEmpty | ChartDataManager.cs:12-27 | from empty, a series holds exactly the newest min(n, 61) values pushed, in arrival order |
| Chart.PushedKeepsNewest | ChartDataManager.cs:22-27 | one update keeps the window: a series holding the newest values of all but the last pushed value holds the newest values of all of them after the last push |
| Chart.PushRepeatIsPushAll | ChartDataManager.cs:12-27 | pushing one value n times is pushing the n values of a constant sequence, oldest first |
| Chart.Series.Count | ChartDataManager.cs:24 | `Count` is the number of points held |
| Chart.Series.RemoveAt | ChartDataManager.cs:25 | removes exactly the point at the index, keeping the others in order |
| Chart.Series.Add | ChartDataManager.cs:26 | appends the value at the end |
| Chart.ChartDataManager.constructor | ChartDataManager.cs:7-10 | four distinct, empty series |
| Chart.ChartDataManager.UpdateSeries | ChartDataManager.cs:22-27 | the series becomes `Pushed` of its old points and the value |
| Chart.ChartDataManager.Update | ChartDataManager.cs:14-20 | each of the four series gets its own value pushed; equal lengths stay equal and the 61-point bound is preserved |
| Common.Divide | ProfilerService.cs:101 | IEEE division: a finite quotient for a non-zero divisor; otherwise +inf, -inf or NaN by the dividend's sign |
| Common.ScaleBy | ProfilerService.cs:101 | scaling by a positive constant multiplies finite values and keeps infinities and NaN |
| Text.IntToString | PerformanceHelpers.cs:105 | `int.ToString()`: a non-empty decimal rendering with a leading `-` for negatives and no comma or quote |
| Text.NatToStringRoundTrip | PerformanceHelpers.cs:105 | the decimal rendering of a natural number reads back as that number |
| Text.PadDigitsRoundTrip | ProfilingDataStats.cs:47 | a zero-padded field of width w reads back as its number when the number is below 10^w |
| Text.PadDigitsOfValue | ProfilingDataStats.cs:95 | every digit string of width w is the padded rendering of its value |
| Text.ContainsAt | MainWindow.xaml.cs:110-112 | `Contains` holds whenever the text occurs at some position |
| Text.ContainsFindsPosition | MainWindow.xaml.cs:110-112 | `Contains` holds only when the text occurs at some position (with `ContainsAt`, exactly then) |
| Text.Trim | PerformanceHelpers.cs:105 | `Trim()` returns text that neither starts nor ends with white space and is no longer than its input |
| Text.TrimIsSlice | PerformanceHelpers.cs:105 | what `Trim()` keeps is one contiguous slice of the text, the one that starts after the leading white space |
| Text.TrimDropsOnlyWhiteSpace | PerformanceHelpers.cs:105 | every character `Trim()` removes, before or after the kept slice, is white space |
| Text.TrimAfterWhiteSpace | PerformanceHelpers.cs:105 | leading white space is dropped and trimmed text is left as it is |
| Text.SplitLines | PerformanceHelpers.cs:102 | the split yields only non-empty lines without CR or LF |
| Text.SplitLinesLosesOnlyBreaks | PerformanceHelpers.cs:102 | joining the split lines gives the output with exactly its CR and LF characters removed |
| Text.LessIrreflexive | MainWindow.xaml.cs:74 | ordinal order never puts a name before itself |
| Text.LessTransitive | MainWindow.xaml.cs:74 | ordinal order is transitive |
| Text.LessTotal | MainWindow.xaml.cs:74 | two different names are always ordered one way or the other |
| Text.LessAsymmetric | MainWindow.xaml.cs:74 | two names are never ordered both ways |
| Clock.TruncateToSecond | ProfilingDataStats.cs:91 | the same calendar fields down to the second, no sub-second part, and a tick count lower by exactly that part |
| Clock.ElapsedMsAdds | ProfilerService.cs:100 | elapsed milliseconds are differences on one clock: zero from an instant to itself, negated when reversed, and additive over an intermediate instant |
| ProfilingDataStats.FormatTimestamp | ProfilingDataStats.cs:47 | `yyyy-MM-dd HH:mm:ss` yields 19 characters with digits and separators in the fixed places, and no comma |
| ProfilingDataStats.ConverterWrite | ProfilingDataStats.cs:98-101 | the converter writes the 19-character layout |
| ProfilingDataStats.ParseTimestamp | ProfilingDataStats.cs:95 | `ParseExact` succeeds only on a string in the layout, and gives an instant with no sub-second part |
| ProfilingDataStats.ConverterRead | ProfilingDataStats.cs:93-96 | the converter accepts only strings in the layout |
| ProfilingDataStats.ConverterRoundTrip | ProfilingDataStats.cs:89-102 | writing then reading gives the same instant truncated to the second |
| ProfilingDataStats.ConverterReadThenWrite | ProfilingDataStats.cs:89-102 | writing back whatever `Read` accepts reproduces the token exactly |
| ProfilingDataStats.JoinCommas | ProfilingDataStats.cs:47 | the first field comes first, followed by a comma when there are more fields |
| ProfilingDataStats.CsvFieldsOf | ProfilingDataStats.cs:47 | a sample has seven CSV fields |
| ProfilingDataStats.ToCsv | ProfilingDataStats.cs:45-48 | the line starts with the formatted timestamp and a comma |
| ProfilingDataStats.FirstComma | ProfilingDataStats.cs:45-48 | the first comma of a string holding one |
| ProfilingDataStats.SplitJoinCommas | ProfilingDataStats.cs:45-48 | splitting comma-free fields joined by commas gives the fields back |
| ProfilingDataStats.CsvFields | ProfilingDataStats.cs:45-48 | a CSV line splits back into its seven fields, in column order, when the number formatter writes no comma |
| ProfilingDataStats.CsvTimestampReadsBack | ProfilingDataStats.cs:47 | the first 19 characters of a CSV line read back, through the JSON converter, as the sample's instant to the second |
| ProfilingDataStats.SaveToCsv | ProfilingDataStats.cs:68-75 | appending to a file adds exactly one line, the sample's CSV line, and keeps the earlier lines |
| ProfilingDataStats.SaveToJson | ProfilingDataStats.cs:77-84 | appending adds exactly one line, the JSON text followed by a single comma, and keeps the earlier lines |
| PerformanceHelpers.CpuTimes | PerformanceHelpers.cs:17 | the processor-time reads of the group, one per process, in order |
| PerformanceHelpers.WorkingSets | PerformanceHelpers.cs:44 | the working-set reads of the group, one per process, in order |
| PerformanceHelpers.PrivateBytes | PerformanceHelpers.cs:54 | the private-memory reads of the group, one per process, in order |
| PerformanceHelpers.ThreadCounts | PerformanceHelpers.cs:64 | the thread-count reads of the group, one per process, in order |
| PerformanceHelpers.SumReadableAppend | PerformanceHelpers.cs:42-45 | the readable sum over two parts of a group is the sum of their sums |
| PerformanceHelpers.SumReadableSkipsFailure | PerformanceHelpers.cs:44 | a process whose read throws contributes nothing to the sum |
| PerformanceHelpers.SumReadableNonNegative | PerformanceHelpers.cs:39-67 | non-negative reads give a non-negative sum |
| PerformanceHelpers.SumReadableRealAppend | PerformanceHelpers.cs:15-18 | the readable CPU-time sum over two parts is the sum of their sums |
| PerformanceHelpers.CpuPercent | PerformanceHelpers.cs:32 | the percentage formula is finite when elapsed time times cores is non-zero; otherwise it is infinite or NaN |
| PerformanceHelpers.CpuPercentWithinRange | PerformanceHelpers.cs:30-32 | CPU time used within wall time times processors reads between 0 % and 100 % |
| PerformanceHelpers.CpuPercentExample | PerformanceHelpers.cs:32 | 2000 ms of CPU over 1000 ms on 4 processors is 50 % |
| PerformanceHelpers.GetCpuUsage | PerformanceHelpers.cs:12-37 | the new baseline is the readable CPU-time sum and the current time; without a previous baseline the usage is 0, otherwise it is the delta percentage |
| PerformanceHelpers.SumReadableLoop | PerformanceHelpers.cs:41-45 | the loop total equals the sum of the readable values |
| PerformanceHelpers.GetMemoryUsage | PerformanceHelpers.cs:39-47 | the summed readable working sets, divided by 1024*1024 |
| PerformanceHelpers.GetPrivateMemoryUsage | PerformanceHelpers.cs:49-57 | the summed readable private bytes, divided by 1024*1024 |
| PerformanceHelpers.GetThreadCount | PerformanceHelpers.cs:59-67 | the summed readable thread counts |
| PerformanceHelpers.MemoryExample | PerformanceHelpers.cs:39-47 | working sets of 10 MiB and 20 MiB report 30 MB |
| PerformanceHelpers.PerformanceCounter.constructor | PerformanceHelpers.cs:75 | the counter is bound to the given instance name |
| PerformanceHelpers.DiskReading | PerformanceHelpers.cs:69-83 | 0 when no counter is cached for the name and none can be created, or when `NextValue` throws |
| PerformanceHelpers.CachedAfter | PerformanceHelpers.cs:73-76 | the cache is either kept or replaced by a counter for the name; a creatable counter always ends up cached |
| PerformanceHelpers.DiskCounterCache.constructor | PerformanceHelpers.cs:10 | no counter is cached at first |
| PerformanceHelpers.DiskCounterCache.GetDiskIO | PerformanceHelpers.cs:69-83 | a hit keeps the cached counter; a miss replaces it with a fresh counter for the name when one can be created, else keeps it; the value is the next reading in MB/s or 0 on failure |
| PerformanceHelpers.DiskCacheStable | PerformanceHelpers.cs:73 | once a counter for a name is cached, further calls with that name keep it |
| PerformanceHelpers.ConnectionCount | PerformanceHelpers.cs:103-105 | at most one connection per line |
| PerformanceHelpers.ConnectionCountIsMatchingLines | PerformanceHelpers.cs:103-105 | the count is the number of lines that start with "  TCP" ignoring case and whose trimmed text ends with the process id |
| PerformanceHelpers.GetNetworkUsage | PerformanceHelpers.cs:85-113 | the score is a non-negative multiple of 10, at most 10 per output line, and 0 when netstat cannot run |
| PerformanceHelpers.ConnectionCountAppend | PerformanceHelpers.cs:103-105 | the count over two parts of the output is the sum of their counts |
| PerformanceHelpers.SplitLinesAtBreak | PerformanceHelpers.cs:102 | text joined by a line break splits as its two parts do |
| PerformanceHelpers.NonTcpLineNotCounted | PerformanceHelpers.cs:103-104 | appending a line that does not start with "  TCP" (ignoring case) leaves the score unchanged |
| PerformanceHelpers.LineAddsItsConnection | PerformanceHelpers.cs:102-107 | one more output line adds 10 to the score exactly when it is a connection of the process, and nothing otherwise |
| PerformanceHelpers.SuffixMatchCountsLongerPid | PerformanceHelpers.cs:105 | the id test is a suffix match: a `TCP` line counts for a process whatever digits precede its id, so a line ending in id 112 counts for process 12 |
| Profiler.Zero | ProfilerService.cs:67-72 | every total starts at zero |
| Profiler.Step | ProfilerService.cs:76-86 | each total grows by its own read only when every earlier read of the process succeeded (CPU time, then working set, private bytes, threads); a process that fails any read before the collectors adds no disk or network and leaves the disk cache; one that passes adds both readings and updates the cache |
| Profiler.FoldAppend | ProfilerService.cs:74-87 | the loop over two parts of the group is the loop over the first, then over the second |
| Profiler.FoldSumsReadsBeforeFailure | ProfilerService.cs:74-87 | the memory, private-memory and thread totals of the loop are the sums of the reads each process reaches before its first failure |
| Profiler.UnreadableProcessContributesNothing | ProfilerService.cs:76-86 | a process whose CPU time cannot be read changes no total and no cache |
| Profiler.FoldCpuIsReadableSum | ProfilerService.cs:78 | the tick's CPU total is the sum `GetCpuUsage` forms over the same group |
| Profiler.FoldMatchesCollectors | ProfilerService.cs:79-81 | when every read succeeds, the memory, private-memory and thread totals are the collectors' sums |
| Profiler.CutoffSkipsCollectors | ProfilerService.cs:76-86 | a process that fails a read before the collectors contributes the same totals and leaves the same disk-counter cache, whatever its disk counter, its `NextValue` and netstat would say |
| Profiler.LiveGroupMembers | ProfilerService.cs:62-63 | the group is absent exactly when some `HasExited` read throws; otherwise it holds exactly the processes that have not exited |
| Profiler.LiveGroupOfOne | ProfilerService.cs:62-63 | one process is dropped when it has exited, kept when it has not, and abandons the tick when `HasExited` throws |
| Profiler.LiveGroupAppend | ProfilerService.cs:62-63 | the live group of two runs of processes is that of the first followed by that of the second, so the filter keeps order |
| Profiler.BuildSample | ProfilerService.cs:106-127 | the emitted sample carries the timestamp, name and CPU percentage; memory and private memory in MB (bytes / 1048576); the disk and network figures; the thread, process and collection counts; the static CPU description; process id and GPU fields keep their defaults |
| Profiler.Enqueued | ProfilerService.cs:129-131 | the new sample is last; the buffer grows by one, or keeps its length when it already held 100 |
| Profiler.EnqueuedKeepsOlder | ProfilerService.cs:129-131 | the samples before the new one are the buffered ones in their order, less the oldest one only when the buffer held 100 |
| Profiler.EnqueueAllKeepsNewest | ProfilerService.cs:129-131 | from empty, the buffer holds exactly the newest min(n, 100) samples emitted, in order |
| Profiler.EnqueuedKeepsNewest | ProfilerService.cs:129-131 | one enqueue keeps the window: a buffer holding the newest samples of all but the last holds the newest samples of all of them after the last enqueue and trim |
| Profiler.VirtualizationText | ProfilerService.cs:154 | "Enabled" exactly when the firmware property renders as "True", else "Disabled" |
| Profiler.ProcessorStep | ProfilerService.cs:150-155 | a processor row sets the core count, then the clock speed, then the virtualization text, and changes no other field; the first read that throws (a conversion, or a missing `VirtualizationFirmwareEnabled` property) ends the filling with the earlier assignments kept |
| Profiler.CacheStep | ProfilerService.cs:158-168 | once the filling has failed, a cache row changes nothing |
| Profiler.ProcessorFoldFails | ProfilerService.cs:150-155 | the processor loop fails exactly when some row has a value that does not convert |
| Profiler.CacheFoldFails | ProfilerService.cs:158-168 | the cache loop fails exactly when some row's level or size does not convert |
| Profiler.ProcessorFoldStaysFailed | ProfilerService.cs:147-172 | after an exception, later processor rows change nothing |
| Profiler.CacheFoldStaysFailed | ProfilerService.cs:147-172 | after an exception, later cache rows change nothing |
| Profiler.PopulateSetsProcessorCount | ProfilerService.cs:145-173 | the logical processor count is set exactly when both queries run and every value converts; otherwise it stays 0 |
| Profiler.ProcessorFoldKeepsCount | ProfilerService.cs:150-155 | processor rows leave the cache sizes and the processor count alone |
| Profiler.CacheFoldKeepsCount | ProfilerService.cs:158-168 | cache rows leave the core count, clock speed, virtualization and processor count alone |
| Profiler.CacheFoldPicksLastOfLevel | ProfilerService.cs:158-168 | each cache size is that of the last row of its level; a level without rows keeps its value |
| Profiler.ProcessorFoldPicksLastRow | ProfilerService.cs:150-155 | the core count, clock speed and virtualization text come from the last processor row |
| Profiler.Stopped | ProfilerService.cs:43-44 | a held timer becomes disabled and disposed with its interval kept; no timer stays no timer |
| Profiler.StopIdempotent | ProfilerService.cs:40-45 | stopping twice is stopping once |
| Profiler.ProfilerService.constructor | ProfilerService.cs:14-23 | not running, no baseline, no timer, an empty buffer and no subscribers |
| Profiler.ProfilerService.Subscribe | ProfilerService.cs:12 | one more handler; nothing else changes |
| Profiler.ProfilerService.Unsubscribe | ProfilerService.cs:12 | one handler fewer, if any; nothing else changes |
| Profiler.ProfilerService.StartGroup | ProfilerService.cs:25-38 | running with the name selected, the static description `Populate` gives, and a new enabled one-second timer; an old enabled timer becomes stray; baseline and buffer are kept |
| Profiler.ProfilerService.Stop | ProfilerService.cs:40-45 | not running and the timer stopped and disposed; everything else kept |
| Profiler.ProfilerService.SetSamplingInterval | ProfilerService.cs:47-53 | with a timer, a positive interval is set and a non-positive one raises the setter's ArgumentException; with no timer nothing changes |
| Profiler.ProfilerService.AccumulateGroup | ProfilerService.cs:67-87 | the loop's totals and the disk cache it leaves are those of `Fold` over the group |
| Profiler.ProfilerService.Tick | ProfilerService.cs:55-143 | through `Ticked`: skipped while busy or stopped; aborted when a `HasExited` read throws; nothing for an empty group; the first measurement sets the baseline only; later ones emit the sample with the CPU delta percentage and enqueue it into the 100-sample buffer; the busy flag is always cleared |
| Profiler.ProfilerService.Record | ProfilerService.cs:89-133 | the baseline moves to this tick; with a previous baseline the sample is built and enqueued |
| Profiler.PopulateSystemCpuInfo | ProfilerService.cs:145-173 | the loops compute `Populate`, including the early stop on an exception |
| Export.HeaderMatchesRows | ExportService.cs:28-33 | the header names seven columns, and every data line splits into seven fields |
| Export.ExportProfilingSamplesToCsv | ExportService.cs:10-38 | nothing for a null or empty list; cancelled when the dialog is dismissed; otherwise the header then one `ToCsv` line per sample, in order |
| Export.WriteLines | ExportService.cs:30-33 | the `foreach` write loop keeps the lines already written and adds one line per row after them, in row order |
| Export.ExportedTimestampsReadBack | ExportService.cs:30-33 | each data line's timestamp reads back as the sample's instant to the second |
| Export.Render | ExportService.cs:55 | a null value renders as the empty string |
| Export.ParseInfoRow | ExportService.cs:54-55 | a parsed row's category and property hold no comma |
| Export.InfoRowRoundTrip | ExportService.cs:54-55 | a row reads back as its three cells whatever the value holds, when category and property hold no comma |
| Export.FixedInfoRows | ExportService.cs:57-68 | twelve fixed rows |
| Export.ExportSystemInfoToCsv | ExportService.cs:40-76 | cancelled exactly when the dialog is dismissed; otherwise the header, the twelve fixed rows in order, then one row per drive |
| Export.DriveRowsReadBack | ExportService.cs:70-71 | each drive row reads back as the drive's text |
| Window.Insert | MainWindow.xaml.cs:72-74 | the first item is the new name or the old first item |
| Window.InsertSpec | MainWindow.xaml.cs:72-74 | insertion keeps the names strictly ordered, adds no other name, keeps the lower id for the name and leaves other names alone |
| Window.AbsentBeforeHead | MainWindow.xaml.cs:74 | a name ordered before the head of a sorted list is not in it |
| Window.PickerSpec | MainWindow.xaml.cs:68-79 | names strictly increase; a name is listed exactly when some live, non-blank process has it; its id is one of them and no higher than any of them |
| Window.PickerStep | MainWindow.xaml.cs:68-72 | adding one more process to a correct picker list for the others gives a correct list for all of them: sorted, every name backed by a listed process with its id, no listed process with a lower id or missing |
| Window.SortedItemsAreFound | MainWindow.xaml.cs:72-74 | every item of a sorted list is the one looked up by its name |
| Window.PickerItems | MainWindow.xaml.cs:70-75 | each item is a listed process with the lowest id of its name, and every listed process's name has an item |
| Window.FindIndex | MainWindow.xaml.cs:72-74 | a listed name has a position whose item carries that name and id |
| Window.ChooseInterval | MainWindow.xaml.cs:105-114 | tests in the order "500", "1000", "2000": 500 exactly when the text contains "500"; 1000 exactly when it does not but contains "1000"; 2000 exactly when it contains neither but contains "2000"; nothing when none occurs |
| Window.FifteenHundredSelectsFiveHundred | MainWindow.xaml.cs:110 | "1500 ms" selects 500 ms, because "500" is tested first |
| Window.MainWindow.constructor | MainWindow.xaml.cs:27-38 | the items come from the picker, with nothing collected and empty charts |
| Window.MainWindow.LoadProcesses | MainWindow.xaml.cs:68-79 | the combo box items become the picker's result; nothing else changes |
| Window.MainWindow.StartClick | MainWindow.xaml.cs:81-95 | with no selection, a message only and the service untouched; otherwise subscribed once more, the group started with a new timer (an old enabled timer becoming stray), baseline, buffer and busy flag kept, samples cleared, Start disabled and Stop enabled |
| Window.MainWindow.StopClick | MainWindow.xaml.cs:97-103 | the service is stopped with its timer disposed and one handler unsubscribed; baseline, buffer, selection, static description and stray timers are kept; Start enabled and Stop disabled |
| Window.MainWindow.SamplingRateChanged | MainWindow.xaml.cs:105-114 | the interval is set only for an item whose text names a rate, and only on a timer that exists; every other field of the service is kept |
| Window.MainWindow.OnSampleReceived | MainWindow.xaml.cs:116-140 | the sample is appended to the collected list and its CPU, memory, disk and network figures are pushed onto the four charts |
| Window.MainWindow.DeliverTick | ProfilerService.cs:55-133 | the service does what `Tick` states (`Ticked`): a sample is emitted exactly when the service is idle and running, the group is live and non-empty and a baseline exists; it is the sample built from the group's totals and the CPU delta; the buffer gains it; it is collected and pushed onto each chart once per subscription (each Start click adds one); otherwise nothing is collected and the charts are unchanged |
| Window.MainWindow.Broadcast | ProfilerService.cs:133 | invoking the event with `n` handlers attached collects the sample `n` times and pushes its four figures `n` times onto the four charts; the process list and selection are kept |
| Window.MainWindow.ExportSamplesClick | MainWindow.xaml.cs:142-145 | exports the collected list: nothing when empty, cancelled exactly when there are samples and the dialog is dismissed, otherwise the header and one line per collected sample |

## Left out

- Threads, the timer's own firing, `Dispatcher.Invoke` and the lack of locking are out of scope. Each tick, click and handler call is one atomic method call. `DeliverTick` stands for a timer firing.
- Live operating-system data is an input. This covers `Process.GetProcesses`, `GetProcessesByName`, `Environment.ProcessorCount`, `GC.CollectionCount` and `DateTime.Now`.
- `Profiler.ProfilerService.Tick` takes for granted that the `ProcessName` read inside the loop succeeds, and models a `GetProcessesByName` failure only through the `HasExited` reads.
- WMI queries are inputs, as rows whose reads may each throw (a conversion, a missing property). `SystemInfoService` is not part of this model, and neither is `DisplaySystemInfo`.
- Floating-point rounding is not modelled: finite values are exact reals, and infinities and NaN appear only where a division by zero produces them. The `long` to `float` and `double` to `float` casts are exact in the model.
- `long` and `int` overflow of the sums is not modelled; integers are unbounded.
- `TimeSpan.FromMilliseconds` rounding of the CPU baseline is not modelled.
- The float-to-text rendering of the CSV line is a parameter (`fmt`). Lemmas about reading a line back require that it writes no comma, as the invariant culture does.
- The JSON serializer of `ToJson` is a parameter (`toJson`). Only the converter for timestamps is modelled.
- File writes and the save dialog are modelled as line sequences and an `accepted` flag. Message boxes are outcomes.
- `OrderBy(ProcessName)` uses the current culture's comparer; the model uses ordinal order.
- `EndsWith` in the network count is culture-sensitive; the model uses ordinal comparison. Case-insensitive `StartsWith` is modelled for ASCII letters only.
- The order of the processes `GetProcessesByName` returns comes from the operating system; the model takes it as given.
- The text fields, chart axes, colours and the advanced-panel toggles of the window are not modelled.
- The initial enabled state of the two buttons comes from the window markup, which is not part of this model. It is a constructor parameter.
- Console logging of a failed tick is not modelled; the outcome `Aborted` stands for it.
- The event is modelled as a count of subscribed handlers, because only the window's handler ever subscribes.
