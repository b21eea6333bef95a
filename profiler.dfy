/** `ProfilerService`: the timer-driven sampler of one process group. A
    tick reads every live process that carries the selected name, adds up
    its CPU time, memory, threads, disk and network figures, turns the CPU
    delta since the previous tick into a percentage, stamps the static CPU
    description on the sample, keeps the newest 100 samples and hands the
    sample to the subscribers. */
module Profiler {
  import opened Common
  import opened Clock
  import opened ProfilingDataStats
  import opened PerformanceHelpers

  const BufferSize: int := 100
  const InitialIntervalMs: int := 1000

  // ---------------------------------------------------------------------
  // One tick: the per-process accumulation

  /** The running totals of the per-process loop, with the instance name of
      the cached disk counter the loop leaves behind. */
  datatype Totals = Totals(
    cpuMs: real,
    memory: int,
    privateMem: int,
    threads: int,
    disk: real,
    network: real,
    cache: Option<string>
  )

  function Zero(cache: Option<string>): (t: Totals)
    ensures t.cpuMs == 0.0 && t.memory == 0 && t.privateMem == 0 && t.threads == 0
    ensures t.disk == 0.0 && t.network == 0.0 && t.cache == cache
  {
    Totals(0.0, 0, 0, 0, 0.0, 0.0, cache)
  }

  /** Whether every property read before the disk and network collectors
      succeeds for `p`, so that the loop body runs to its end. */
  predicate ReachesCollectors(p: ProcessReading) {
    p.totalProcessorTimeMs.Some? && p.workingSet64.Some? && p.privateMemorySize64.Some?
    && p.threadCount.Some?
  }

  /** The working set as the loop reads it: only once the processor time
      has been read. */
  function WorkingSetRead(p: ProcessReading): Option<int> {
    if p.totalProcessorTimeMs.Some? then p.workingSet64 else None
  }

  /** The private bytes as the loop reads them: only once the processor
      time and the working set have been read. */
  function PrivateBytesRead(p: ProcessReading): Option<int> {
    if WorkingSetRead(p).Some? then p.privateMemorySize64 else None
  }

  /** The thread count as the loop reads it: only once every earlier read
      has succeeded. */
  function ThreadCountRead(p: ProcessReading): Option<int> {
    if PrivateBytesRead(p).Some? then p.threadCount else None
  }

  /** One iteration of the per-process loop. The reads run in the order
      processor time, working set, private bytes, thread count, disk,
      network; the first read that throws ends the iteration and the
      amounts added before it stay added. */
  function Step(t: Totals, p: ProcessReading): (u: Totals)
    ensures p.totalProcessorTimeMs.None? ==> u == t
    ensures u.cpuMs == t.cpuMs + (if p.totalProcessorTimeMs.Some? then p.totalProcessorTimeMs.value else 0.0)
    ensures u.memory == t.memory + WorkingSetRead(p).GetOr(0)
    ensures u.privateMem == t.privateMem + PrivateBytesRead(p).GetOr(0)
    ensures u.threads == t.threads + ThreadCountRead(p).GetOr(0)
    ensures !ReachesCollectors(p) ==> u.disk == t.disk && u.network == t.network && u.cache == t.cache
    ensures ReachesCollectors(p) ==>
      && u.disk == t.disk + DiskReading(t.cache, p.name, p.diskCounterCreatable, p.diskNextValue)
      && u.network == t.network + GetNetworkUsage(p.netstatOutput, p.id)
      && u.cache == CachedAfter(t.cache, p.name, p.diskCounterCreatable)
  {
    if p.totalProcessorTimeMs.None? then t
    else
      var t1 := t.(cpuMs := t.cpuMs + p.totalProcessorTimeMs.value);
      if p.workingSet64.None? then t1
      else
        var t2 := t1.(memory := t1.memory + p.workingSet64.value);
        if p.privateMemorySize64.None? then t2
        else
          var t3 := t2.(privateMem := t2.privateMem + p.privateMemorySize64.value);
          if p.threadCount.None? then t3
          else
            var t4 := t3.(threads := t3.threads + p.threadCount.value);
            t4.(disk := t4.disk + DiskReading(t4.cache, p.name, p.diskCounterCreatable, p.diskNextValue),
                network := t4.network + GetNetworkUsage(p.netstatOutput, p.id),
                cache := CachedAfter(t4.cache, p.name, p.diskCounterCreatable))
  }

  /** The totals after the loop has visited `ps` in order. */
  function Fold(t: Totals, ps: seq<ProcessReading>): Totals {
    if ps == [] then t else Step(Fold(t, ps[..|ps| - 1]), ps[|ps| - 1])
  }

  lemma {:induction false} FoldAppend(t: Totals, a: seq<ProcessReading>, b: seq<ProcessReading>)
    ensures Fold(t, a + b) == Fold(Fold(t, a), b)
    decreases |b|
  {
    if b == [] {
      assert a + b == a;
    } else {
      FoldAppend(t, a, b[..|b| - 1]);
      assert (a + b)[..|a + b| - 1] == a + b[..|b| - 1];
    }
  }

  /** A process whose processor time cannot be read contributes nothing
      to any total and leaves the disk counter cache alone. */
  lemma UnreadableProcessContributesNothing(t: Totals, a: seq<ProcessReading>, p: ProcessReading,
                                            b: seq<ProcessReading>)
    requires p.totalProcessorTimeMs.None?
    ensures Fold(t, a + [p] + b) == Fold(t, a + b)
  {
    FoldAppend(t, a + [p], b);
    FoldAppend(t, a, b);
    assert (a + [p])[..|a + [p]| - 1] == a;
  }

  /** The tick's CPU total is the same sum `GetCpuUsage` forms: every
      readable processor time counts, because it is the first read. */
  lemma {:induction false} FoldCpuIsReadableSum(t: Totals, ps: seq<ProcessReading>)
    ensures Fold(t, ps).cpuMs == t.cpuMs + SumReadableReal(CpuTimes(ps))
  {
    if ps != [] {
      FoldCpuIsReadableSum(t, ps[..|ps| - 1]);
      assert CpuTimes(ps)[..|ps| - 1] == CpuTimes(ps[..|ps| - 1]);
    }
  }

  /** When every read succeeds, the tick's memory, private-memory and
      thread totals are the sums `GetMemoryUsage`, `GetPrivateMemoryUsage`
      and `GetThreadCount` form over the same group. */
  lemma {:induction false} FoldMatchesCollectors(t: Totals, ps: seq<ProcessReading>)
    requires forall i :: 0 <= i < |ps| ==> ReachesCollectors(ps[i])
    ensures Fold(t, ps).memory == t.memory + SumReadable(WorkingSets(ps))
    ensures Fold(t, ps).privateMem == t.privateMem + SumReadable(PrivateBytes(ps))
    ensures Fold(t, ps).threads == t.threads + SumReadable(ThreadCounts(ps))
  {
    if ps != [] {
      var init := ps[..|ps| - 1];
      FoldMatchesCollectors(t, init);
      assert WorkingSets(ps)[..|ps| - 1] == WorkingSets(init);
      assert PrivateBytes(ps)[..|ps| - 1] == PrivateBytes(init);
      assert ThreadCounts(ps)[..|ps| - 1] == ThreadCounts(init);
    }
  }

  /** Whatever fails, the tick's memory, private-memory and thread totals
      sum exactly the values read before a process's first failing read:
      a throwing `PrivateMemorySize64` keeps that process's working set, a
      throwing `Threads` read keeps its private bytes. */
  lemma {:induction false} FoldSumsReadsBeforeFailure(t: Totals, ps: seq<ProcessReading>)
    ensures Fold(t, ps).memory == t.memory + SumReadable(seq(|ps|, i requires 0 <= i < |ps| => WorkingSetRead(ps[i])))
    ensures Fold(t, ps).privateMem ==
      t.privateMem + SumReadable(seq(|ps|, i requires 0 <= i < |ps| => PrivateBytesRead(ps[i])))
    ensures Fold(t, ps).threads == t.threads + SumReadable(seq(|ps|, i requires 0 <= i < |ps| => ThreadCountRead(ps[i])))
  {
    if ps != [] {
      var init := ps[..|ps| - 1];
      FoldSumsReadsBeforeFailure(t, init);
      assert seq(|ps|, i requires 0 <= i < |ps| => WorkingSetRead(ps[i]))[..|init|] ==
             seq(|init|, i requires 0 <= i < |init| => WorkingSetRead(init[i]));
      assert seq(|ps|, i requires 0 <= i < |ps| => PrivateBytesRead(ps[i]))[..|init|] ==
             seq(|init|, i requires 0 <= i < |init| => PrivateBytesRead(init[i]));
      assert seq(|ps|, i requires 0 <= i < |ps| => ThreadCountRead(ps[i]))[..|init|] ==
             seq(|init|, i requires 0 <= i < |init| => ThreadCountRead(init[i]));
    }
  }

  /** A process that fails a read before the collectors adds no disk or
      network traffic, whatever its counters and netstat would have said. */
  lemma CutoffSkipsCollectors(t: Totals, p: ProcessReading, creatable: bool, next: Option<real>,
                               netstat: Option<string>)
    requires !ReachesCollectors(p)
    ensures var q := p.(diskCounterCreatable := creatable, diskNextValue := next, netstatOutput := netstat);
            Step(t, p) == Step(t, q)
  {
  }

  /** The processes of the group that have not exited, or `None` when
      reading `HasExited` throws for one of them (the whole tick is then
      abandoned). */
  function LiveGroup(named: seq<ProcessReading>): Option<seq<ProcessReading>>
  {
    if named == [] then Some([])
    else
      var rest := LiveGroup(named[1..]);
      match named[0].hasExited
      case None => None
      case Some(exited) =>
        if rest.None? then None
        else if exited then rest
        else Some([named[0]] + rest.value)
  }

  /** The group is abandoned exactly when one of its `HasExited` reads
      throws; otherwise it keeps exactly the processes that have not
      exited. */
  lemma {:induction false} LiveGroupMembers(named: seq<ProcessReading>)
    ensures LiveGroup(named).None? <==> exists i :: 0 <= i < |named| && named[i].hasExited.None?
    ensures LiveGroup(named).Some? ==>
      forall p :: p in LiveGroup(named).value <==> p in named && p.hasExited == Some(false)
  {
    if named != [] {
      LiveGroupMembers(named[1..]);
      var rest := LiveGroup(named[1..]);
      assert forall i :: 1 <= i < |named| ==> named[1..][i - 1] == named[i];
      assert forall q :: q in named <==> q == named[0] || q in named[1..];
      match named[0].hasExited
      case None =>
      case Some(exited) =>
        if rest.Some? && !exited {
          assert forall q :: q in [named[0]] + rest.value <==> q == named[0] || q in rest.value;
        }
    }
  }

  /** One process on its own: dropped when it has exited, kept when it
      has not, and the whole group abandoned when the read throws. */
  lemma LiveGroupOfOne(p: ProcessReading)
    ensures LiveGroup([p]) == match p.hasExited
      case None => None
      case Some(exited) => if exited then Some([]) else Some([p])
  {
    assert [p][1..] == [];
    assert LiveGroup([p][1..]) == Some([]);
    match p.hasExited
    case None =>
    case Some(exited) =>
      assert [p][0] == p;
      if !exited {
        assert LiveGroup([p]) == Some([p] + []);
        assert [p] + [] == [p];
      } else {
        assert LiveGroup([p]) == LiveGroup([p][1..]);
      }
  }

  /** The live group of two runs of processes is the live group of the
      first followed by that of the second: `LiveGroup` keeps the order of
      the processes it keeps. */
  lemma {:induction false} LiveGroupAppend(a: seq<ProcessReading>, b: seq<ProcessReading>)
    ensures LiveGroup(a + b) ==
      if LiveGroup(a).None? || LiveGroup(b).None? then None else Some(LiveGroup(a).value + LiveGroup(b).value)
  {
    if a == [] {
      assert a + b == b && LiveGroup(a) == Some([]);
      if LiveGroup(b).Some? {
        assert [] + LiveGroup(b).value == LiveGroup(b).value;
      }
    } else {
      var ab := a + b;
      assert ab[0] == a[0] && ab[1..] == a[1..] + b;
      LiveGroupAppend(a[1..], b);
      var rest, ra, rb := LiveGroup(ab[1..]), LiveGroup(a[1..]), LiveGroup(b);
      match a[0].hasExited
      case None =>
        assert LiveGroup(ab) == None && LiveGroup(a) == None;
      case Some(exited) =>
        if exited {
          assert LiveGroup(ab) == rest && LiveGroup(a) == ra;
        } else if ra.Some? && rb.Some? {
          assert LiveGroup(ab) == Some([a[0]] + rest.value);
          assert LiveGroup(a) == Some([a[0]] + ra.value);
          assert [a[0]] + (ra.value + rb.value) == ([a[0]] + ra.value) + rb.value;
        } else {
          assert LiveGroup(ab) == None && LiveGroup(a) == if ra.None? then None else Some([a[0]] + ra.value);
        }
    }
  }

  // ---------------------------------------------------------------------
  // The sample and the buffer

  /** The sample a tick emits: a `new ProfilingDataStats` whose initializer
      sets the measured fields and copies the static CPU description; the
      process id and the GPU figures are never set. */
  function BuildSample(timestamp: DateTime, name: Option<string>, cpuUsage: Float, t: Totals,
                       processCount: int, gc0: int, gc1: int, gc2: int, info: Sample): (s: Sample)
    ensures s.processId == 0
    ensures s.gpuUsagePercent == s.gpuTempC == s.gpuClockMHz == s.gpuMemoryMB == Finite(0.0)
    ensures s.logicalProcessorCount == info.logicalProcessorCount
    ensures s.physicalCoreCount == info.physicalCoreCount && s.clockSpeedMHz == info.clockSpeedMHz
    ensures s.virtualizationStatus == info.virtualizationStatus
    ensures s.l1CacheKB == info.l1CacheKB && s.l2CacheKB == info.l2CacheKB && s.l3CacheKB == info.l3CacheKB
    ensures s.timestamp == timestamp && s.processName == name && s.cpuUsage == cpuUsage
    ensures s.memoryUsage.Finite? && s.memoryUsage.r * 1048576.0 == t.memory as real
    ensures s.privateMemoryUsage.Finite? && s.privateMemoryUsage.r * 1048576.0 == t.privateMem as real
    ensures s.diskIO == Finite(t.disk) && s.networkUsage == Finite(t.network)
    ensures s.threadCount == t.threads && s.processCount == processCount
    ensures s.gcGen0Collections == gc0 && s.gcGen1Collections == gc1 && s.gcGen2Collections == gc2
  {
    EmptySample.(
      timestamp := timestamp,
      processName := name,
      cpuUsage := cpuUsage,
      memoryUsage := Finite(t.memory as real / BytesPerMegabyte),
      privateMemoryUsage := Finite(t.privateMem as real / BytesPerMegabyte),
      diskIO := Finite(t.disk),
      networkUsage := Finite(t.network),
      threadCount := t.threads,
      processCount := processCount,
      gcGen0Collections := gc0,
      gcGen1Collections := gc1,
      gcGen2Collections := gc2,
      logicalProcessorCount := info.logicalProcessorCount,
      physicalCoreCount := info.physicalCoreCount,
      clockSpeedMHz := info.clockSpeedMHz,
      virtualizationStatus := info.virtualizationStatus,
      l1CacheKB := info.l1CacheKB,
      l2CacheKB := info.l2CacheKB,
      l3CacheKB := info.l3CacheKB)
  }

  /** The buffer after `Enqueue` and the conditional `TryDequeue`: the new
      sample is last, at most `BufferSize` samples remain, and only the
      oldest one is dropped, and only when the buffer was full. */
  function Enqueued<T>(buffer: seq<T>, s: T): (r: seq<T>)
    ensures |r| == (if |buffer| >= BufferSize then |buffer| else |buffer| + 1)
    ensures r[|r| - 1] == s
  {
    var b := buffer + [s];
    if |b| > BufferSize then b[1..] else b
  }

  /** The samples before the new one are the buffered ones in their order,
      less the oldest one when the buffer was full. */
  lemma EnqueuedKeepsOlder<T>(buffer: seq<T>, s: T)
    ensures var r := Enqueued(buffer, s); r[..|r| - 1] == buffer[|buffer| + 1 - |r|..]
  {
    var b := buffer + [s];
    assert b[..|buffer|] == buffer;
  }

  function EnqueueAll<T>(buffer: seq<T>, ss: seq<T>): seq<T> {
    if ss == [] then buffer else Enqueued(EnqueueAll(buffer, ss[..|ss| - 1]), ss[|ss| - 1])
  }

  function Min(a: int, b: int): int {
    if a <= b then a else b
  }

  /** Enqueuing onto a full buffer of the newest `BufferSize` samples gives
      the newest `BufferSize` samples of the longer sequence. */
  lemma EnqueuedWindow<T>(init: seq<T>, s: T)
    requires |init| >= BufferSize
    ensures Enqueued(init[|init| - BufferSize..], s) == (init + [s])[|init| + 1 - BufferSize..]
  {
    var w := init[|init| - BufferSize..];
    assert Enqueued(w, s) == w[1..] + [s];
    SlideWindow(init, s, BufferSize);
  }

  /** One enqueue keeps the window of newest samples: if the buffer holds
      the newest samples of all but the last of `ss`, enqueuing the last
      gives the newest samples of `ss`. */
  lemma EnqueuedKeepsNewest<T>(ss: seq<T>, before: seq<T>)
    requires ss != []
    requires before == ss[..|ss| - 1][|ss| - 1 - Min(|ss| - 1, BufferSize)..]
    ensures Enqueued(before, ss[|ss| - 1]) == ss[|ss| - Min(|ss|, BufferSize)..]
  {
    var init := ss[..|ss| - 1];
    var s := ss[|ss| - 1];
    assert ss == init + [s];
    if |init| < BufferSize {
      assert before == init by {
        assert |ss| - 1 - Min(|ss| - 1, BufferSize) == 0;
      }
      assert Enqueued(before, s) == init + [s];
      assert Min(|ss|, BufferSize) == |ss|;
      assert ss[0..] == ss;
    } else {
      assert before == init[|init| - BufferSize..] by {
        assert Min(|ss| - 1, BufferSize) == BufferSize;
      }
      EnqueuedWindow(init, s);
      assert Min(|ss|, BufferSize) == BufferSize;
    }
  }

  /** From an empty buffer, the buffer holds exactly the newest
      `BufferSize` samples emitted (all of them while there are fewer), in
      emission order. */
  lemma {:induction false} EnqueueAllKeepsNewest<T>(ss: seq<T>)
    ensures EnqueueAll<T>([], ss) == ss[|ss| - Min(|ss|, BufferSize)..]
  {
    if ss != [] {
      EnqueueAllKeepsNewest(ss[..|ss| - 1]);
      EnqueuedKeepsNewest(ss, EnqueueAll<T>([], ss[..|ss| - 1]));
    }
  }

  // ---------------------------------------------------------------------
  // The static CPU description

  /** One `Win32_Processor` object. Each conversion is `None` when it
      throws. `virtualizationFirmwareEnabled` is `None` when the object has
      no such property (the indexer throws, as on systems whose
      `Win32_Processor` class predates it), `Some(None)` when the property
      is null, and otherwise `Some` of its `ToString()`. */
  datatype ProcessorRow = ProcessorRow(
    numberOfCores: Option<int>,
    currentClockSpeed: Option<int>,
    virtualizationFirmwareEnabled: Option<Option<string>>
  )

  /** Every read of the processor row succeeds. */
  predicate ProcessorRowReads(row: ProcessorRow) {
    row.numberOfCores.Some? && row.currentClockSpeed.Some? && row.virtualizationFirmwareEnabled.Some?
  }

  /** One `Win32_CacheMemory` object: `level` is `None` when the unboxing
      to `ushort` throws, `installedSize` when the conversion throws. */
  datatype CacheRow = CacheRow(level: Option<int>, installedSize: Option<int>)

  /** The description being filled in, and whether an exception has ended
      the filling. */
  datatype Populating = Populating(info: Sample, failed: bool)

  function VirtualizationText(raw: Option<string>): (text: string)
    ensures text == "Enabled" <==> raw == Some("True")
    ensures text == "Enabled" || text == "Disabled"
  {
    if raw == Some("True") then "Enabled" else "Disabled"
  }

  /** One iteration of the processor loop: the core count, the clock speed
      and the virtualization text are assigned in that order, and the first
      read that throws ends the filling with the earlier assignments kept. */
  function ProcessorStep(st: Populating, row: ProcessorRow): (r: Populating)
    ensures st.failed ==> r == st
    ensures r.failed <==> st.failed || !ProcessorRowReads(row)
    ensures r.info == st.info.(physicalCoreCount := r.info.physicalCoreCount, clockSpeedMHz := r.info.clockSpeedMHz,
                               virtualizationStatus := r.info.virtualizationStatus)
    ensures !st.failed ==>
      r.info.physicalCoreCount == (if row.numberOfCores.Some? then row.numberOfCores.value else st.info.physicalCoreCount)
    ensures !st.failed ==>
      r.info.clockSpeedMHz ==
        (if row.numberOfCores.Some? && row.currentClockSpeed.Some? then row.currentClockSpeed.value
         else st.info.clockSpeedMHz)
    ensures !st.failed ==>
      r.info.virtualizationStatus ==
        (if ProcessorRowReads(row) then Some(VirtualizationText(row.virtualizationFirmwareEnabled.value))
         else st.info.virtualizationStatus)
  {
    if st.failed then st
    else if row.numberOfCores.None? then st.(failed := true)
    else
      var info := st.info.(physicalCoreCount := row.numberOfCores.value);
      if row.currentClockSpeed.None? then Populating(info, true)
      else
        var info2 := info.(clockSpeedMHz := row.currentClockSpeed.value);
        if row.virtualizationFirmwareEnabled.None? then Populating(info2, true)
        else
          Populating(info2.(virtualizationStatus :=
                              Some(VirtualizationText(row.virtualizationFirmwareEnabled.value))),
                     false)
  }

  function CacheStep(st: Populating, row: CacheRow): (r: Populating)
    ensures st.failed ==> r == st
  {
    if st.failed then st
    else if row.level.None? || row.installedSize.None? then st.(failed := true)
    else
      var size := row.installedSize.value;
      match row.level.value
      case 1 => st.(info := st.info.(l1CacheKB := size))
      case 2 => st.(info := st.info.(l2CacheKB := size))
      case 3 => st.(info := st.info.(l3CacheKB := size))
      case _ => st
  }

  function ProcessorFold(st: Populating, rows: seq<ProcessorRow>): Populating {
    if rows == [] then st else ProcessorStep(ProcessorFold(st, rows[..|rows| - 1]), rows[|rows| - 1])
  }

  function CacheFold(st: Populating, rows: seq<CacheRow>): Populating {
    if rows == [] then st else CacheStep(CacheFold(st, rows[..|rows| - 1]), rows[|rows| - 1])
  }

  /** `PopulateSystemCpuInfo` applied to a fresh `ProfilingDataStats`: the
      processor query, then the cache query, then the processor count; an
      exception anywhere keeps what was written before it and skips the
      rest. A query that cannot run is `None`. */
  function Populate(processors: Option<seq<ProcessorRow>>, caches: Option<seq<CacheRow>>,
                    processorCount: int): Sample
  {
    if processors.None? then EmptySample
    else
      var p := ProcessorFold(Populating(EmptySample, false), processors.value);
      if p.failed || caches.None? then p.info
      else
        var c := CacheFold(p, caches.value);
        if c.failed then c.info else c.info.(logicalProcessorCount := processorCount)
  }

  predicate RowsConvert(processors: seq<ProcessorRow>, caches: seq<CacheRow>) {
    && (forall i :: 0 <= i < |processors| ==> ProcessorRowReads(processors[i]))
    && (forall i :: 0 <= i < |caches| ==> caches[i].level.Some? && caches[i].installedSize.Some?)
  }

  lemma {:induction false} ProcessorFoldFails(st: Populating, rows: seq<ProcessorRow>)
    ensures ProcessorFold(st, rows).failed <==>
      st.failed || exists i :: 0 <= i < |rows| && !ProcessorRowReads(rows[i])
  {
    if rows != [] {
      var init := rows[..|rows| - 1];
      ProcessorFoldFails(st, init);
      assert forall i :: 0 <= i < |init| ==> init[i] == rows[i];
      if exists i :: 0 <= i < |init| && !ProcessorRowReads(init[i]) {
        var i :| 0 <= i < |init| && !ProcessorRowReads(init[i]);
        assert rows[i] == init[i];
      }
    }
  }

  lemma {:induction false} CacheFoldFails(st: Populating, rows: seq<CacheRow>)
    ensures CacheFold(st, rows).failed <==>
      st.failed || exists i :: 0 <= i < |rows| && (rows[i].level.None? || rows[i].installedSize.None?)
  {
    if rows != [] {
      var init := rows[..|rows| - 1];
      CacheFoldFails(st, init);
      assert forall i :: 0 <= i < |init| ==> init[i] == rows[i];
      if exists i :: 0 <= i < |init| && (init[i].level.None? || init[i].installedSize.None?) {
        var i :| 0 <= i < |init| && (init[i].level.None? || init[i].installedSize.None?);
        assert rows[i] == init[i];
      }
    }
  }

  /** Once an exception has ended the filling, later rows change nothing. */
  lemma {:induction false} ProcessorFoldStaysFailed(st: Populating, rows: seq<ProcessorRow>, k: nat)
    requires k <= |rows| && ProcessorFold(st, rows[..k]).failed
    ensures ProcessorFold(st, rows) == ProcessorFold(st, rows[..k])
    decreases |rows|
  {
    if k < |rows| {
      var init := rows[..|rows| - 1];
      assert init[..k] == rows[..k];
      ProcessorFoldStaysFailed(st, init, k);
    } else {
      assert rows[..k] == rows;
    }
  }

  lemma {:induction false} CacheFoldStaysFailed(st: Populating, rows: seq<CacheRow>, k: nat)
    requires k <= |rows| && CacheFold(st, rows[..k]).failed
    ensures CacheFold(st, rows) == CacheFold(st, rows[..k])
    decreases |rows|
  {
    if k < |rows| {
      var init := rows[..|rows| - 1];
      assert init[..k] == rows[..k];
      CacheFoldStaysFailed(st, init, k);
    } else {
      assert rows[..k] == rows;
    }
  }

  /** The logical processor count is filled in exactly when both queries
      run and every value converts; otherwise it keeps its default 0. */
  lemma PopulateSetsProcessorCount(processors: Option<seq<ProcessorRow>>, caches: Option<seq<CacheRow>>,
                                   processorCount: int)
    ensures (processors.Some? && caches.Some? && RowsConvert(processors.value, caches.value)) ==>
      Populate(processors, caches, processorCount).logicalProcessorCount == processorCount
    ensures !(processors.Some? && caches.Some? && RowsConvert(processors.value, caches.value)) ==>
      Populate(processors, caches, processorCount).logicalProcessorCount == 0
  {
    if processors.Some? {
      var p := ProcessorFold(Populating(EmptySample, false), processors.value);
      ProcessorFoldFails(Populating(EmptySample, false), processors.value);
      ProcessorFoldKeepsCount(Populating(EmptySample, false), processors.value);
      if !p.failed && caches.Some? {
        CacheFoldFails(p, caches.value);
        CacheFoldKeepsCount(p, caches.value);
      }
    }
  }

  lemma {:induction false} ProcessorFoldKeepsCount(st: Populating, rows: seq<ProcessorRow>)
    ensures ProcessorFold(st, rows).info.logicalProcessorCount == st.info.logicalProcessorCount
    ensures ProcessorFold(st, rows).info.l1CacheKB == st.info.l1CacheKB
    ensures ProcessorFold(st, rows).info.l2CacheKB == st.info.l2CacheKB
    ensures ProcessorFold(st, rows).info.l3CacheKB == st.info.l3CacheKB
  {
    if rows != [] {
      ProcessorFoldKeepsCount(st, rows[..|rows| - 1]);
    }
  }

  lemma {:induction false} CacheFoldKeepsCount(st: Populating, rows: seq<CacheRow>)
    ensures CacheFold(st, rows).info.logicalProcessorCount == st.info.logicalProcessorCount
    ensures CacheFold(st, rows).info.physicalCoreCount == st.info.physicalCoreCount
    ensures CacheFold(st, rows).info.clockSpeedMHz == st.info.clockSpeedMHz
    ensures CacheFold(st, rows).info.virtualizationStatus == st.info.virtualizationStatus
  {
    if rows != [] {
      CacheFoldKeepsCount(st, rows[..|rows| - 1]);
    }
  }

  /** The size of the last cache row of level `level`, or `default` when
      there is none. */
  function LastSizeOfLevel(rows: seq<CacheRow>, level: int, default: int): int
    requires forall i :: 0 <= i < |rows| ==> rows[i].installedSize.Some?
  {
    if rows == [] then default
    else if rows[|rows| - 1].level == Some(level) then rows[|rows| - 1].installedSize.value
    else LastSizeOfLevel(rows[..|rows| - 1], level, default)
  }

  /** With every value convertible, each cache size is the one of the last
      row of that level (later rows overwrite earlier ones), rows of other
      levels change nothing, and a level without rows keeps its value. */
  lemma {:induction false} CacheFoldPicksLastOfLevel(st: Populating, rows: seq<CacheRow>)
    requires !st.failed && RowsConvert([], rows)
    ensures !CacheFold(st, rows).failed
    ensures CacheFold(st, rows).info.l1CacheKB == LastSizeOfLevel(rows, 1, st.info.l1CacheKB)
    ensures CacheFold(st, rows).info.l2CacheKB == LastSizeOfLevel(rows, 2, st.info.l2CacheKB)
    ensures CacheFold(st, rows).info.l3CacheKB == LastSizeOfLevel(rows, 3, st.info.l3CacheKB)
  {
    if rows != [] {
      CacheFoldPicksLastOfLevel(st, rows[..|rows| - 1]);
    }
  }

  /** With every value convertible and at least one processor row, the
      core count, clock speed and virtualization text come from the last
      row. */
  lemma ProcessorFoldPicksLastRow(st: Populating, rows: seq<ProcessorRow>)
    requires !st.failed && rows != [] && RowsConvert(rows, [])
    ensures !ProcessorFold(st, rows).failed
    ensures ProcessorFold(st, rows).info.physicalCoreCount == rows[|rows| - 1].numberOfCores.value
    ensures ProcessorFold(st, rows).info.clockSpeedMHz == rows[|rows| - 1].currentClockSpeed.value
    ensures ProcessorFold(st, rows).info.virtualizationStatus ==
      Some(VirtualizationText(rows[|rows| - 1].virtualizationFirmwareEnabled.value))
  {
    ProcessorFoldFails(st, rows);
  }

  // ---------------------------------------------------------------------
  // The service

  /** A `System.Timers.Timer` as the service drives it (`AutoReset` is
      always true). */
  datatype TimerState = TimerState(intervalMs: int, enabled: bool, disposed: bool)

  /** The timer after `_samplingTimer?.Stop(); _samplingTimer?.Dispose()`. */
  function Stopped(timer: Option<TimerState>): (r: Option<TimerState>)
    ensures r.None? <==> timer.None?
    ensures r.Some? ==> !r.value.enabled && r.value.disposed && r.value.intervalMs == timer.value.intervalMs
  {
    match timer
    case None => None
    case Some(t) => Some(t.(enabled := false, disposed := true))
  }

  /** Stopping twice is the same as stopping once. */
  lemma StopIdempotent(timer: Option<TimerState>)
    ensures Stopped(Stopped(timer)) == Stopped(timer)
  {
  }

  /** What one timer tick did. */
  datatype TickOutcome =
    | Skipped       // a tick is already running, or the service is stopped
    | Aborted       // reading `HasExited` threw; the exception was logged
    | NoProcesses   // no live process carries the selected name
    | BaselineSet   // first tick: the CPU baseline was recorded, nothing emitted
    | Emitted(sample: Sample)

  datatype IntervalResult = IntervalSet | ArgumentError

  /** What one tick does to the service and what it reports, from the
      state before it (`old`) to the state after it. */
  twostate predicate Ticked(s: ProfilerService, outcome: TickOutcome, named: seq<ProcessReading>,
                            timestamp: DateTime, currentTime: DateTime, processorCount: int,
                            processCount: int, gc0: int, gc1: int, gc2: int)
    requires old(s.Valid())
    reads s, s.disk
  {
    && (old(s.isSampling) || !old(s.isRunning) ==>
        outcome == Skipped && s.isSampling == old(s.isSampling) && s.buffer == old(s.buffer)
        && s.lastCpuMs == old(s.lastCpuMs) && s.lastCpuCheckTime == old(s.lastCpuCheckTime)
        && s.disk.counter == old(s.disk.counter))
    && (!old(s.isSampling) && old(s.isRunning) ==> !s.isSampling)
    && (!old(s.isSampling) && old(s.isRunning) && LiveGroup(named).None? ==>
        outcome == Aborted && s.buffer == old(s.buffer) && s.disk.counter == old(s.disk.counter)
        && s.lastCpuMs == old(s.lastCpuMs) && s.lastCpuCheckTime == old(s.lastCpuCheckTime))
    && (!old(s.isSampling) && old(s.isRunning) && LiveGroup(named) == Some([]) ==>
        outcome == NoProcesses && s.buffer == old(s.buffer) && s.disk.counter == old(s.disk.counter)
        && s.lastCpuMs == old(s.lastCpuMs) && s.lastCpuCheckTime == old(s.lastCpuCheckTime))
    && (!old(s.isSampling) && old(s.isRunning) && LiveGroup(named).Some? && LiveGroup(named).value != [] ==>
        var t := Fold(Zero(InstanceOf(old(s.disk.counter))), LiveGroup(named).value);
        && InstanceOf(s.disk.counter) == t.cache
        && s.lastCpuMs == t.cpuMs && s.lastCpuCheckTime == currentTime
        && (old(s.lastCpuCheckTime) == Default ==> outcome == BaselineSet && s.buffer == old(s.buffer))
        && (old(s.lastCpuCheckTime) != Default ==>
              var cpu := CpuPercent(t.cpuMs - old(s.lastCpuMs), ElapsedMs(currentTime, old(s.lastCpuCheckTime)),
                                    processorCount);
              && outcome == Emitted(BuildSample(timestamp, old(s.selectedName), cpu, t, processCount,
                                                gc0, gc1, gc2, old(s.staticInfo).value))
              && s.buffer == Enqueued(old(s.buffer), outcome.sample)))
  }

  class ProfilerService {
    var isRunning: bool
    var isSampling: bool
    var lastCpuMs: real
    var lastCpuCheckTime: DateTime
    var staticInfo: Option<Sample>
    var selectedName: Option<string>
    var timer: Option<TimerState>
    /** Timers replaced by `StartGroup` while still enabled: they keep
        raising ticks but the service no longer holds them. */
    var strayTimers: nat
    var buffer: seq<Sample>
    /** Handlers subscribed to `OnSampleReceived`. */
    var subscriptions: nat
    /** The disk counter cached by `GetDiskIO`, shared by all ticks. */
    const disk: DiskCounterCache

    predicate Valid()
      reads this
    {
      && |buffer| <= BufferSize
      && (isRunning ==> staticInfo.Some? && selectedName.Some? && timer.Some?)
    }

    constructor (disk: DiskCounterCache)
      ensures Valid() && this.disk == disk
      ensures !isRunning && !isSampling && lastCpuMs == 0.0 && lastCpuCheckTime == Default
      ensures staticInfo.None? && selectedName.None? && timer.None? && strayTimers == 0
      ensures buffer == [] && subscriptions == 0
    {
      this.disk := disk;
      isRunning, isSampling := false, false;
      lastCpuMs, lastCpuCheckTime := 0.0, Default;
      staticInfo, selectedName, timer, strayTimers := None, None, None, 0;
      buffer, subscriptions := [], 0;
    }

    /** `OnSampleReceived += handler`. */
    method Subscribe()
      modifies this
      ensures subscriptions == old(subscriptions) + 1
      ensures unchanged(this`isRunning, this`isSampling, this`timer, this`strayTimers, this`buffer)
      ensures unchanged(this`selectedName, this`staticInfo, this`lastCpuMs, this`lastCpuCheckTime)
    {
      subscriptions := subscriptions + 1;
    }

    /** `OnSampleReceived -= handler`: removes one subscription if any. */
    method Unsubscribe()
      modifies this
      ensures subscriptions == if old(subscriptions) > 0 then old(subscriptions) - 1 else 0
      ensures unchanged(this`isRunning, this`isSampling, this`timer, this`strayTimers, this`buffer)
      ensures unchanged(this`selectedName, this`staticInfo, this`lastCpuMs, this`lastCpuCheckTime)
    {
      if subscriptions > 0 {
        subscriptions := subscriptions - 1;
      }
    }

    /** `StartGroup`: selects the group, marks the service running, fills
        in the static CPU description and starts a new one-second timer.
        The CPU baseline and the buffer are kept. */
    method StartGroup(processName: string, processors: Option<seq<ProcessorRow>>,
                      caches: Option<seq<CacheRow>>, processorCount: int)
      requires Valid()
      modifies this
      ensures Valid() && isRunning && selectedName == Some(processName)
      ensures staticInfo == Some(Populate(processors, caches, processorCount))
      ensures timer == Some(TimerState(InitialIntervalMs, true, false))
      ensures strayTimers == old(strayTimers) + (if old(timer).Some? && old(timer).value.enabled then 1 else 0)
      ensures lastCpuMs == old(lastCpuMs) && lastCpuCheckTime == old(lastCpuCheckTime)
      ensures buffer == old(buffer) && subscriptions == old(subscriptions) && isSampling == old(isSampling)
    {
      selectedName := Some(processName);
      isRunning := true;
      var info := PopulateSystemCpuInfo(processors, caches, processorCount);
      staticInfo := Some(info);
      if timer.Some? && timer.value.enabled {
        strayTimers := strayTimers + 1;
      }
      timer := Some(TimerState(InitialIntervalMs, true, false));
    }

    /** `Stop`: clears the running flag, stops and disposes the timer. */
    method Stop()
      requires Valid()
      modifies this
      ensures Valid() && !isRunning && timer == Stopped(old(timer))
      ensures strayTimers == old(strayTimers) && buffer == old(buffer)
      ensures selectedName == old(selectedName) && staticInfo == old(staticInfo)
      ensures lastCpuMs == old(lastCpuMs) && lastCpuCheckTime == old(lastCpuCheckTime)
      ensures subscriptions == old(subscriptions) && isSampling == old(isSampling)
    {
      isRunning := false;
      timer := Stopped(timer);
    }

    /** `SetSamplingInterval`: changes the current timer's interval; with
        no timer it does nothing. The `Interval` setter rejects a value
        that is not positive. */
    method SetSamplingInterval(intervalMs: int) returns (r: IntervalResult)
      modifies this
      ensures r == ArgumentError <==> old(timer).Some? && intervalMs <= 0
      ensures r == IntervalSet && old(timer).Some? ==> timer == Some(old(timer).value.(intervalMs := intervalMs))
      ensures r == ArgumentError || old(timer).None? ==> timer == old(timer)
      ensures isRunning == old(isRunning) && buffer == old(buffer) && strayTimers == old(strayTimers)
      ensures selectedName == old(selectedName) && staticInfo == old(staticInfo)
      ensures lastCpuMs == old(lastCpuMs) && lastCpuCheckTime == old(lastCpuCheckTime)
      ensures subscriptions == old(subscriptions) && isSampling == old(isSampling)
    {
      if timer.Some? {
        if intervalMs <= 0 {
          return ArgumentError;
        }
        timer := Some(timer.value.(intervalMs := intervalMs));
      }
      r := IntervalSet;
    }

    /** The per-process loop of a tick: the totals of the group, read in
        order, with the disk counter cache threaded through the calls. */
    method AccumulateGroup(group: seq<ProcessReading>) returns (t: Totals)
      modifies disk
      ensures t == Fold(Zero(InstanceOf(old(disk.counter))), group)
      ensures InstanceOf(disk.counter) == t.cache
    {
      ghost var start := Zero(InstanceOf(disk.counter));
      var cpuTime, memory, privateMem, threadCount := 0.0, 0, 0, 0;
      var diskUsage, networkUsage := 0.0, 0.0;
      var i := 0;
      while i < |group|
        invariant 0 <= i <= |group|
        invariant Fold(start, group[..i]) ==
          Totals(cpuTime, memory, privateMem, threadCount, diskUsage, networkUsage, InstanceOf(disk.counter))
      {
        ghost var before := Totals(cpuTime, memory, privateMem, threadCount, diskUsage, networkUsage,
                                   InstanceOf(disk.counter));
        assert Fold(start, group[..i + 1]) == Step(before, group[i]) by {
          assert group[..i + 1][..i] == group[..i];
        }
        var p := group[i];
        if p.totalProcessorTimeMs.Some? {
          cpuTime := cpuTime + p.totalProcessorTimeMs.value;
          if p.workingSet64.Some? {
            memory := memory + p.workingSet64.value;
            if p.privateMemorySize64.Some? {
              privateMem := privateMem + p.privateMemorySize64.value;
              if p.threadCount.Some? {
                threadCount := threadCount + p.threadCount.value;
                var d := disk.GetDiskIO(p.name, p.diskCounterCreatable, p.diskNextValue);
                diskUsage := diskUsage + d;
                networkUsage := networkUsage + GetNetworkUsage(p.netstatOutput, p.id);
              }
            }
          }
        }
        assert Totals(cpuTime, memory, privateMem, threadCount, diskUsage, networkUsage,
                      InstanceOf(disk.counter)) == Step(before, p);
        i := i + 1;
      }
      assert group[..i] == group;
      t := Totals(cpuTime, memory, privateMem, threadCount, diskUsage, networkUsage, InstanceOf(disk.counter));
    }

    /** `SampleGroupedPerformance`, one timer tick. `named` is what
        `GetProcessesByName` returns for the selected name; `timestamp` and
        `currentTime` are the two clock reads; `processorCount`,
        `processCount` and the three collection counts are the values the
        runtime reports at that moment. */
    method Tick(named: seq<ProcessReading>, timestamp: DateTime, currentTime: DateTime,
                processorCount: int, processCount: int, gc0: int, gc1: int, gc2: int)
      returns (outcome: TickOutcome)
      requires Valid()
      modifies this, disk
      ensures Valid()
      ensures Ticked(this, outcome, named, timestamp, currentTime, processorCount, processCount, gc0, gc1, gc2)
      ensures isRunning == old(isRunning) && timer == old(timer) && strayTimers == old(strayTimers)
      ensures selectedName == old(selectedName) && staticInfo == old(staticInfo)
      ensures subscriptions == old(subscriptions)
    {
      if isSampling || !isRunning {
        return Skipped;
      }
      isSampling := true;

      var live := LiveGroup(named);
      if live.None? {
        isSampling := false;
        return Aborted;
      }
      var group := live.value;
      if group == [] {
        isSampling := false;
        return NoProcesses;
      }

      var t := AccumulateGroup(group);
      outcome := Record(t, timestamp, currentTime, processorCount, processCount, gc0, gc1, gc2);
      isSampling := false;
    }

    /** The rest of a tick once the group's totals are known: the first
        measurement only records the CPU baseline; later ones emit a sample
        with the CPU delta as a percentage and enqueue it. */
    method Record(t: Totals, timestamp: DateTime, currentTime: DateTime, processorCount: int,
                  processCount: int, gc0: int, gc1: int, gc2: int)
      returns (outcome: TickOutcome)
      requires staticInfo.Some? && |buffer| <= BufferSize
      modifies this
      ensures lastCpuMs == t.cpuMs && lastCpuCheckTime == currentTime
      ensures old(lastCpuCheckTime) == Default ==> outcome == BaselineSet && buffer == old(buffer)
      ensures old(lastCpuCheckTime) != Default ==>
        && outcome == Emitted(BuildSample(timestamp, old(selectedName),
                                          CpuPercent(t.cpuMs - old(lastCpuMs),
                                                     ElapsedMs(currentTime, old(lastCpuCheckTime)),
                                                     processorCount),
                                          t, processCount, gc0, gc1, gc2, old(staticInfo).value))
        && buffer == Enqueued(old(buffer), outcome.sample)
      ensures isRunning == old(isRunning) && timer == old(timer) && strayTimers == old(strayTimers)
      ensures selectedName == old(selectedName) && staticInfo == old(staticInfo)
      ensures subscriptions == old(subscriptions) && isSampling == old(isSampling)
    {
      if lastCpuCheckTime == Default {
        lastCpuMs, lastCpuCheckTime := t.cpuMs, currentTime;
        return BaselineSet;
      }

      var cpuUsage := CpuPercent(t.cpuMs - lastCpuMs, ElapsedMs(currentTime, lastCpuCheckTime), processorCount);
      lastCpuMs, lastCpuCheckTime := t.cpuMs, currentTime;

      var data := BuildSample(timestamp, selectedName, cpuUsage, t, processCount, gc0, gc1, gc2,
                              staticInfo.value);
      buffer := buffer + [data];
      if |buffer| > BufferSize {
        buffer := buffer[1..];
      }
      outcome := Emitted(data);
    }
  }

  /** `PopulateSystemCpuInfo` on a fresh `ProfilingDataStats`. */
  method PopulateSystemCpuInfo(processors: Option<seq<ProcessorRow>>, caches: Option<seq<CacheRow>>,
                               processorCount: int)
    returns (info: Sample)
    ensures info == Populate(processors, caches, processorCount)
  {
    info := EmptySample;
    if processors.None? {
      return;
    }
    var rows := processors.value;
    var i := 0;
    while i < |rows|
      invariant 0 <= i <= |rows|
      invariant ProcessorFold(Populating(EmptySample, false), rows[..i]) == Populating(info, false)
    {
      assert rows[..i + 1][..i] == rows[..i];
      var row := rows[i];
      if row.numberOfCores.None? {
        ProcessorFoldStaysFailed(Populating(EmptySample, false), rows, i + 1);
        return;
      }
      info := info.(physicalCoreCount := row.numberOfCores.value);
      if row.currentClockSpeed.None? {
        ProcessorFoldStaysFailed(Populating(EmptySample, false), rows, i + 1);
        return;
      }
      info := info.(clockSpeedMHz := row.currentClockSpeed.value);
      if row.virtualizationFirmwareEnabled.None? {
        ProcessorFoldStaysFailed(Populating(EmptySample, false), rows, i + 1);
        return;
      }
      info := info.(virtualizationStatus := Some(VirtualizationText(row.virtualizationFirmwareEnabled.value)));
      i := i + 1;
    }
    assert rows[..i] == rows;
    if caches.None? {
      return;
    }
    var cacheRows := caches.value;
    ghost var afterProcessors := Populating(info, false);
    var j := 0;
    while j < |cacheRows|
      invariant 0 <= j <= |cacheRows|
      invariant CacheFold(afterProcessors, cacheRows[..j]) == Populating(info, false)
    {
      assert cacheRows[..j + 1][..j] == cacheRows[..j];
      var row := cacheRows[j];
      if row.level.None? || row.installedSize.None? {
        CacheFoldStaysFailed(afterProcessors, cacheRows, j + 1);
        return;
      }
      var size := row.installedSize.value;
      match row.level.value {
        case 1 => info := info.(l1CacheKB := size);
        case 2 => info := info.(l2CacheKB := size);
        case 3 => info := info.(l3CacheKB := size);
        case _ =>
      }
      j := j + 1;
    }
    assert cacheRows[..j] == cacheRows;
    info := info.(logicalProcessorCount := processorCount);
  }
}
