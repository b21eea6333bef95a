/** `PerformanceHelpers`: the per-group collectors. Everything they would
    read from the operating system is an input: a `ProcessReading` carries
    each property read of one process (or its failure), the disk counter's
    next value and the text `netstat -ano` printed. */
module PerformanceHelpers {
  import opened Common
  import opened Text
  import opened Clock

  /** One live process as seen during one tick. `None` marks a property
      read that throws (the process exited, access was denied). */
  datatype ProcessReading = ProcessReading(
    id: int,
    name: string,
    hasExited: Option<bool>,
    totalProcessorTimeMs: Option<real>,
    workingSet64: Option<int>,
    privateMemorySize64: Option<int>,
    threadCount: Option<int>,
    diskCounterCreatable: bool,     // whether `new PerformanceCounter(...)` succeeds for `name`
    diskNextValue: Option<real>,    // what `NextValue()` returns, `None` if it throws
    netstatOutput: Option<string>   // standard output of `netstat -ano`, `None` if it cannot run
  )

  const BytesPerMegabyte: real := 1048576.0  // 1024f * 1024f

  // ---------------------------------------------------------------------
  // Sums that skip failed reads

  /** Sum of the values that could be read; a failed read adds nothing. */
  function SumReadable(xs: seq<Option<int>>): int {
    if xs == [] then 0
    else SumReadable(xs[..|xs| - 1]) + (if xs[|xs| - 1].Some? then xs[|xs| - 1].value else 0)
  }

  function SumReadableReal(xs: seq<Option<real>>): real {
    if xs == [] then 0.0
    else SumReadableReal(xs[..|xs| - 1]) + (if xs[|xs| - 1].Some? then xs[|xs| - 1].value else 0.0)
  }

  function CpuTimes(ps: seq<ProcessReading>): (xs: seq<Option<real>>)
    ensures |xs| == |ps| && forall i :: 0 <= i < |ps| ==> xs[i] == ps[i].totalProcessorTimeMs
  {
    seq(|ps|, i requires 0 <= i < |ps| => ps[i].totalProcessorTimeMs)
  }

  function WorkingSets(ps: seq<ProcessReading>): (xs: seq<Option<int>>)
    ensures |xs| == |ps| && forall i :: 0 <= i < |ps| ==> xs[i] == ps[i].workingSet64
  {
    seq(|ps|, i requires 0 <= i < |ps| => ps[i].workingSet64)
  }

  function PrivateBytes(ps: seq<ProcessReading>): (xs: seq<Option<int>>)
    ensures |xs| == |ps| && forall i :: 0 <= i < |ps| ==> xs[i] == ps[i].privateMemorySize64
  {
    seq(|ps|, i requires 0 <= i < |ps| => ps[i].privateMemorySize64)
  }

  function ThreadCounts(ps: seq<ProcessReading>): (xs: seq<Option<int>>)
    ensures |xs| == |ps| && forall i :: 0 <= i < |ps| ==> xs[i] == ps[i].threadCount
  {
    seq(|ps|, i requires 0 <= i < |ps| => ps[i].threadCount)
  }

  lemma {:induction false} SumReadableAppend(a: seq<Option<int>>, b: seq<Option<int>>)
    ensures SumReadable(a + b) == SumReadable(a) + SumReadable(b)
    decreases |b|
  {
    if b == [] {
      assert a + b == a;
    } else {
      SumReadableAppend(a, b[..|b| - 1]);
      assert (a + b)[..|a + b| - 1] == a + b[..|b| - 1];
    }
  }

  /** A process whose read fails contributes nothing: the sum over the
      group equals the sum over the group without it. */
  lemma SumReadableSkipsFailure(a: seq<Option<int>>, b: seq<Option<int>>)
    ensures SumReadable(a + [None] + b) == SumReadable(a + b)
  {
    SumReadableAppend(a + [None], b);
    SumReadableAppend(a, b);
    assert (a + [None])[..|a + [None]| - 1] == a;
  }

  lemma {:induction false} SumReadableNonNegative(xs: seq<Option<int>>)
    requires forall i :: 0 <= i < |xs| && xs[i].Some? ==> xs[i].value >= 0
    ensures SumReadable(xs) >= 0
  {
    if xs != [] {
      SumReadableNonNegative(xs[..|xs| - 1]);
    }
  }

  lemma {:induction false} SumReadableRealAppend(a: seq<Option<real>>, b: seq<Option<real>>)
    ensures SumReadableReal(a + b) == SumReadableReal(a) + SumReadableReal(b)
    decreases |b|
  {
    if b == [] {
      assert a + b == a;
    } else {
      SumReadableRealAppend(a, b[..|b| - 1]);
      assert (a + b)[..|a + b| - 1] == a + b[..|b| - 1];
    }
  }

  // ---------------------------------------------------------------------
  // CPU

  /** `(float)((cpuUsedMs / (elapsedMs * processorCount)) * 100)`. */
  function CpuPercent(cpuUsedMs: real, elapsedMs: real, processorCount: int): (pct: Float)
    ensures elapsedMs * processorCount as real != 0.0 ==>
      pct == Finite(cpuUsedMs / (elapsedMs * processorCount as real) * 100.0)
    ensures elapsedMs * processorCount as real == 0.0 ==> !pct.Finite?
  {
    ScaleBy(Divide(cpuUsedMs, elapsedMs * processorCount as real), 100.0)
  }

  /** CPU time used within wall time times the processor count reads as a
      percentage between 0 and 100. */
  lemma CpuPercentWithinRange(cpuUsedMs: real, elapsedMs: real, processorCount: int)
    requires elapsedMs > 0.0 && processorCount >= 1
    requires 0.0 <= cpuUsedMs <= elapsedMs * processorCount as real
    ensures CpuPercent(cpuUsedMs, elapsedMs, processorCount).Finite?
    ensures 0.0 <= CpuPercent(cpuUsedMs, elapsedMs, processorCount).r <= 100.0
  {
    var d := elapsedMs * processorCount as real;
    assert d >= elapsedMs;
    assert cpuUsedMs / d <= 1.0 by {
      assert cpuUsedMs <= d;
    }
  }

  /** 2000 ms of CPU over 1000 ms on 4 processors is 50 %. */
  lemma CpuPercentExample()
    ensures CpuPercent(2000.0, 1000.0, 4) == Finite(50.0)
  {
  }

  /** `GetCpuUsage`: sums the readable processor times; on the first call
      (no baseline) reports 0, otherwise the delta as a percentage of the
      elapsed wall time across all processors. Returns the new baseline. */
  method GetCpuUsage(processes: seq<ProcessReading>, lastCpuMs: real, lastCheckTime: DateTime,
                     now: DateTime, processorCount: int)
    returns (usage: Float, newCpuMs: real, newCheckTime: DateTime)
    ensures newCpuMs == SumReadableReal(CpuTimes(processes)) && newCheckTime == now
    ensures lastCheckTime == Default ==> usage == Finite(0.0)
    ensures lastCheckTime != Default ==>
      usage == CpuPercent(newCpuMs - lastCpuMs, ElapsedMs(now, lastCheckTime), processorCount)
  {
    var cpuTime := 0.0;
    var i := 0;
    while i < |processes|
      invariant 0 <= i <= |processes|
      invariant cpuTime == SumReadableReal(CpuTimes(processes)[..i])
    {
      assert CpuTimes(processes)[..i + 1][..i] == CpuTimes(processes)[..i];
      var p := processes[i];
      if p.totalProcessorTimeMs.Some? {
        cpuTime := cpuTime + p.totalProcessorTimeMs.value;
      }
      i := i + 1;
    }
    assert CpuTimes(processes)[..i] == CpuTimes(processes);
    newCpuMs, newCheckTime := cpuTime, now;
    if lastCheckTime == Default {
      return Finite(0.0), newCpuMs, newCheckTime;
    }
    usage := CpuPercent(cpuTime - lastCpuMs, ElapsedMs(now, lastCheckTime), processorCount);
  }

  // ---------------------------------------------------------------------
  // Memory and threads

  /** Sum of the readable values of one property over the group. */
  method SumReadableLoop(xs: seq<Option<int>>) returns (total: int)
    ensures total == SumReadable(xs)
  {
    total := 0;
    var i := 0;
    while i < |xs|
      invariant 0 <= i <= |xs|
      invariant total == SumReadable(xs[..i])
    {
      assert xs[..i + 1][..i] == xs[..i];
      if xs[i].Some? {
        total := total + xs[i].value;
      }
      i := i + 1;
    }
    assert xs[..i] == xs;
  }

  /** `GetMemoryUsage`: summed readable working sets in megabytes. */
  method GetMemoryUsage(processes: seq<ProcessReading>) returns (mb: Float)
    ensures mb == Finite(SumReadable(WorkingSets(processes)) as real / BytesPerMegabyte)
  {
    var bytes := SumReadableLoop(WorkingSets(processes));
    mb := Finite(bytes as real / BytesPerMegabyte);
  }

  /** `GetPrivateMemoryUsage`: summed readable private bytes in megabytes. */
  method GetPrivateMemoryUsage(processes: seq<ProcessReading>) returns (mb: Float)
    ensures mb == Finite(SumReadable(PrivateBytes(processes)) as real / BytesPerMegabyte)
  {
    var bytes := SumReadableLoop(PrivateBytes(processes));
    mb := Finite(bytes as real / BytesPerMegabyte);
  }

  /** `GetThreadCount`: summed readable thread counts. */
  method GetThreadCount(processes: seq<ProcessReading>) returns (threads: int)
    ensures threads == SumReadable(ThreadCounts(processes))
  {
    threads := SumReadableLoop(ThreadCounts(processes));
  }

  /** Working sets of 10 MiB and 20 MiB report exactly 30 MB. */
  lemma MemoryExample(p: ProcessReading, q: ProcessReading)
    requires p.workingSet64 == Some(10 * 1048576) && q.workingSet64 == Some(20 * 1048576)
    ensures SumReadable(WorkingSets([p, q])) as real / BytesPerMegabyte == 30.0
  {
    var xs := WorkingSets([p, q]);
    assert xs == [Some(10 * 1048576), Some(20 * 1048576)];
    assert xs[..1][..0] == [];
    assert SumReadable(xs[..1]) == 10 * 1048576;
    assert xs[..|xs| - 1] == xs[..1];
    assert SumReadable(xs) == 30 * 1048576;
  }

  // ---------------------------------------------------------------------
  // Disk: the cached performance counter

  /** A `PerformanceCounter` for "Process" / "IO Data Bytes/sec", bound to
      one instance (process) name. */
  class PerformanceCounter {
    const instanceName: string

    constructor (instanceName: string)
      ensures this.instanceName == instanceName
    {
      this.instanceName := instanceName;
    }
  }

  function InstanceOf(c: PerformanceCounter?): Option<string> {
    if c == null then None else Some(c.instanceName)
  }

  /** Whether a call for `processName` may use the counter already cached. */
  predicate CacheHit(cached: Option<string>, processName: string) {
    cached == Some(processName)
  }

  /** The value `GetDiskIO` returns, in MB/s: the counter's next value over
      1024 * 1024 when a counter is available and reading it succeeds, 0 on
      any failure. */
  function DiskReading(cached: Option<string>, processName: string, creatable: bool,
                       nextValue: Option<real>): (mbps: real)
    ensures (!CacheHit(cached, processName) && !creatable) || nextValue.None? ==> mbps == 0.0
  {
    if (CacheHit(cached, processName) || creatable) && nextValue.Some?
    then nextValue.value / BytesPerMegabyte
    else 0.0
  }

  /** The instance name cached after a `GetDiskIO` call. */
  function CachedAfter(cached: Option<string>, processName: string, creatable: bool): (after: Option<string>)
    ensures after == cached || after == Some(processName)
    ensures creatable ==> after == Some(processName)
  {
    if !CacheHit(cached, processName) && creatable then Some(processName) else cached
  }

  /** The static `_diskCounter` of `PerformanceHelpers`. */
  class DiskCounterCache {
    var counter: PerformanceCounter?

    constructor ()
      ensures counter == null
    {
      counter := null;
    }

    /** `GetDiskIO`: re-creates the counter only when none is cached or the
        cached one is bound to another process name. */
    method GetDiskIO(processName: string, creatable: bool, nextValue: Option<real>)
      returns (mbps: real)
      modifies this
      ensures CacheHit(InstanceOf(old(counter)), processName) ==> counter == old(counter)
      ensures !CacheHit(InstanceOf(old(counter)), processName) && creatable ==>
        fresh(counter) && counter != null && counter.instanceName == processName
      ensures !CacheHit(InstanceOf(old(counter)), processName) && !creatable ==> counter == old(counter)
      ensures InstanceOf(counter) == CachedAfter(InstanceOf(old(counter)), processName, creatable)
      ensures mbps == DiskReading(InstanceOf(old(counter)), processName, creatable, nextValue)
    {
      if counter == null || counter.instanceName != processName {
        if !creatable {
          return 0.0;  // the constructor throws before the field is assigned
        }
        counter := new PerformanceCounter(processName);
      }
      if nextValue.None? {
        return 0.0;
      }
      mbps := nextValue.value / BytesPerMegabyte;
    }
  }

  /** Once a counter for a name is cached, further calls with that name
      keep it, whatever the readings. */
  lemma DiskCacheStable(cached: Option<string>, processName: string, creatable: bool)
    requires CacheHit(cached, processName)
    ensures CachedAfter(cached, processName, creatable) == cached
  {
  }

  // ---------------------------------------------------------------------
  // Network: counting `netstat -ano` lines

  const TcpPrefix: string := "  TCP"
  const ConnectionWeight: real := 10.0

  /** A line counted for `processId`: starts with `"  TCP"` ignoring case,
      and its trimmed text ends with the decimal process id. */
  predicate IsConnectionOf(line: string, processId: int) {
    StartsWithIgnoreCase(line, TcpPrefix) && EndsWith(Trim(line), IntToString(processId))
  }

  function ConnectionCount(lines: seq<string>, processId: int): (n: nat)
    ensures n <= |lines|
  {
    if lines == [] then 0
    else
      var last := if IsConnectionOf(lines[|lines| - 1], processId) then 1 else 0;
      ConnectionCount(lines[..|lines| - 1], processId) + last
  }

  /** `GetNetworkUsage`: ten per matching line of the netstat output; 0 when
      netstat cannot be run. The result is a non-negative multiple of 10 and
      at most ten per output line. */
  function GetNetworkUsage(netstatOutput: Option<string>, processId: int): (score: real)
    ensures score >= 0.0 && score == score.Floor as real && score.Floor % 10 == 0
    ensures netstatOutput.None? ==> score == 0.0
    ensures netstatOutput.Some? ==> score <= ConnectionWeight * |SplitLines(netstatOutput.value)| as real
  {
    match netstatOutput
    case None => 0.0
    case Some(output) =>
      var n := ConnectionCount(SplitLines(output), processId);
      assert ((10 * n) as real).Floor == 10 * n;
      (10 * n) as real
  }

  lemma {:induction false} ConnectionCountAppend(a: seq<string>, b: seq<string>, processId: int)
    ensures ConnectionCount(a + b, processId) == ConnectionCount(a, processId) + ConnectionCount(b, processId)
    decreases |b|
  {
    if b == [] {
      assert a + b == a;
    } else {
      ConnectionCountAppend(a, b[..|b| - 1], processId);
      assert (a + b)[..|a + b| - 1] == a + b[..|b| - 1];
    }
  }

  lemma {:induction false} RunLengthStopsAtBreak(a: string, c: string)
    requires RunLength(a) < |a| || (c != [] && IsLineBreak(c[0]))
    ensures RunLength(a + c) == RunLength(a)
  {
    if a != [] && !IsLineBreak(a[0]) {
      assert (a + c)[1..] == a[1..] + c;
      RunLengthStopsAtBreak(a[1..], c);
    }
  }

  /** Splitting text joined by a line break splits each part separately. */
  lemma {:induction false} SplitLinesAtBreak(a: string, brk: char, b: string)
    requires IsLineBreak(brk)
    ensures SplitLines(a + [brk] + b) == SplitLines(a) + SplitLines(b)
    decreases |a|
  {
    var s := a + [brk] + b;
    if a == [] {
      assert s[1..] == b;
    } else if IsLineBreak(a[0]) {
      assert s[1..] == a[1..] + [brk] + b;
      SplitLinesAtBreak(a[1..], brk, b);
    } else {
      var m := RunLength(a);
      RunLengthStopsAtBreak(a, [brk] + b);
      assert s == a + ([brk] + b);
      assert s[..m] == a[..m];
      assert s[m..] == a[m..] + [brk] + b;
      SplitLinesAtBreak(a[m..], brk, b);
    }
  }

  /** A line that does not start with `"  TCP"` (a UDP entry, a header)
      never changes the count, whatever it ends with. */
  lemma NonTcpLineNotCounted(output: string, line: string, processId: int)
    requires NoBreaks(line) && !StartsWithIgnoreCase(line, TcpPrefix)
    ensures GetNetworkUsage(Some(output + "\n" + line), processId) == GetNetworkUsage(Some(output), processId)
  {
    SplitLinesAtBreak(output, '\n', line);
    assert output + "\n" + line == output + ['\n'] + line;
    var ls := SplitLines(line);
    assert ConnectionCount(ls, processId) == 0 by {
      NoBreakFreeLine(line);
      if line != [] {
        assert ls == [line];
        assert ls[..0] == [];
      }
    }
    ConnectionCountAppend(SplitLines(output), ls, processId);
  }

  /** Appending one more output line adds ten exactly when that line is a
      connection of `processId`, and nothing otherwise. */
  lemma LineAddsItsConnection(output: string, line: string, processId: int)
    requires NoBreaks(line)
    ensures GetNetworkUsage(Some(output + "\n" + line), processId)
         == GetNetworkUsage(Some(output), processId) + (if IsConnectionOf(line, processId) then ConnectionWeight else 0.0)
  {
    SplitLinesAtBreak(output, '\n', line);
    assert output + "\n" + line == output + ['\n'] + line;
    var ls := SplitLines(line);
    assert ConnectionCount(ls, processId) == if IsConnectionOf(line, processId) then 1 else 0 by {
      NoBreakFreeLine(line);
      if line != [] {
        assert ls == [line];
        assert ls[..0] == [];
      }
    }
    ConnectionCountAppend(SplitLines(output), ls, processId);
  }

  /** The indices of the elements of `xs` that satisfy `p`. */
  ghost function IndicesWhere<T>(xs: seq<T>, p: T -> bool): set<int> {
    set i | 0 <= i < |xs| && p(xs[i])
  }

  /** The last element adds its own index, if it satisfies `p`. */
  lemma IndicesWhereSnoc<T>(xs: seq<T>, p: T -> bool)
    requires xs != []
    ensures |IndicesWhere(xs, p)| == |IndicesWhere(xs[..|xs| - 1], p)| + (if p(xs[|xs| - 1]) then 1 else 0)
  {
    var last := |xs| - 1;
    var before := IndicesWhere(xs[..last], p);
    var here := if p(xs[last]) then {last} else {};
    assert IndicesWhere(xs, p) == before + here;
    assert before !! here;
  }

  /** `ConnectionCount` is the number of lines that are connections of
      `processId`. */
  lemma {:induction false} ConnectionCountIsMatchingLines(lines: seq<string>, processId: int)
    ensures ConnectionCount(lines, processId) == |IndicesWhere(lines, l => IsConnectionOf(l, processId))|
  {
    var p := l => IsConnectionOf(l, processId);
    if lines == [] {
      assert IndicesWhere(lines, p) == {};
    } else {
      ConnectionCountIsMatchingLines(lines[..|lines| - 1], processId);
      IndicesWhereSnoc(lines, p);
    }
  }

  lemma NoBreakFreeLine(line: string)
    ensures line == [] ==> SplitLines(line) == []
    ensures line != [] && NoBreaks(line) ==> SplitLines(line) == [line]
  {
    if line != [] && NoBreaks(line) {
      RunLengthWholeRun(line);
      assert !IsLineBreak(line[0]);
      assert line[..|line|] == line && line[|line|..] == [];
    }
  }

  lemma {:induction false} RunLengthWholeRun(line: string)
    requires NoBreaks(line)
    ensures RunLength(line) == |line|
  {
    if line != [] {
      RunLengthWholeRun(line[1..]);
    }
  }

  /** The pid test is a suffix match: a connection line is credited to
      `processId` whatever text comes before the id's digits, so process 12
      is credited with a line that ends in process id 112. */
  lemma SuffixMatchCountsLongerPid(before: string, processId: int)
    ensures IsConnectionOf("  TCP " + before + IntToString(processId), processId)
  {
    var id := IntToString(processId);
    var t := "TCP " + before + id;
    var line := "  TCP " + before + id;
    assert line == "  " + t;
    assert StartsWithIgnoreCase(line, TcpPrefix) by {
      assert forall i :: 0 <= i < 5 ==> line[i] == TcpPrefix[i];
    }
    assert !IsWhiteSpace(t[|t| - 1]) by {
      assert t[|t| - 1] == id[|id| - 1];
      if processId < 0 {
        assert id[|id| - 1] == id[1..][|id| - 2];
      }
    }
    assert Trim(line) == t by {
      TrimAfterWhiteSpace("  ", t);
    }
    assert t[|t| - |id|..] == id;
  }
}
