/** `MainWindow`: the process picker, the Start/Stop buttons, the sampling
    rate choice, the sample handler that feeds the collected list and the
    charts, and the export button. Widgets that only display text are not
    modelled. */
module Window {
  import opened Common
  import opened Text
  import opened Clock
  import opened ProfilingDataStats
  import opened PerformanceHelpers
  import opened Chart
  import opened Profiler
  import opened Export

  // ---------------------------------------------------------------------
  // The process picker

  /** One entry of `Process.GetProcesses()` as the picker reads it: `None`
      marks a property read that throws. */
  datatype Candidate = Candidate(id: int, name: Option<string>, hasExited: Option<bool>)

  /** One item of the process combo box: the process kept for a name. */
  datatype Entry = Entry(id: int, name: string)

  /** `string.IsNullOrWhiteSpace` on a non-null string. */
  predicate IsBlank(s: string) {
    forall i :: 0 <= i < |s| ==> IsWhiteSpace(s[i])
  }

  /** The `Where` filter: the process has not exited and has a name that is
      not blank; a read that throws excludes the process. */
  predicate Listed(c: Candidate) {
    c.hasExited == Some(false) && c.name.Some? && !IsBlank(c.name.value)
  }

  /** Strictly increasing names, which also makes them distinct. */
  predicate Sorted(es: seq<Entry>) {
    forall i, j :: 0 <= i < j < |es| ==> Less(es[i].name, es[j].name)
  }

  function Names(es: seq<Entry>): set<string> {
    set k | 0 <= k < |es| :: es[k].name
  }

  /** The id the list holds for `name`, if any. */
  function IdOf(es: seq<Entry>, name: string): Option<int> {
    if es == [] then None
    else if es[0].name == name then Some(es[0].id)
    else IdOf(es[1..], name)
  }

  /** Adds one listed process to the name-ordered list: a new name goes to
      its place in the order, a known name keeps the lower id. */
  function Insert(es: seq<Entry>, name: string, id: int): (r: seq<Entry>)
    ensures r != [] && (r[0].name == name || (es != [] && r[0].name == es[0].name))
  {
    if es == [] then [Entry(id, name)]
    else if es[0].name == name then [Entry(if id < es[0].id then id else es[0].id, name)] + es[1..]
    else if Less(name, es[0].name) then [Entry(id, name)] + es
    else [es[0]] + Insert(es[1..], name, id)
  }

  /** The items of the combo box for the processes `cs`: the `Where`,
      `GroupBy(ProcessName)`, lowest-id-per-group and `OrderBy(ProcessName)`
      pipeline. */
  function Picker(cs: seq<Candidate>): seq<Entry> {
    if cs == [] then []
    else
      var es := Picker(cs[..|cs| - 1]);
      var c := cs[|cs| - 1];
      if Listed(c) then Insert(es, c.name.value, c.id) else es
  }

  lemma {:induction false} AbsentBeforeHead(es: seq<Entry>, name: string)
    requires Sorted(es) && es != [] && Less(name, es[0].name)
    ensures IdOf(es, name) == None
  {
    LessAsymmetric(name, es[0].name);
    if |es| > 1 {
      LessTransitive(name, es[0].name, es[1].name);
      AbsentBeforeHead(es[1..], name);
    }
  }

  /** `r` is `es` with `name` inserted for process `id`: the names are
      strictly ordered, no name but `name` is added, `name` holds the lower
      of its old id and `id`, and every other name keeps its id. */
  ghost predicate Inserted(es: seq<Entry>, name: string, id: int, r: seq<Entry>) {
    && Sorted(r)
    && (forall k :: 0 <= k < |r| ==> r[k].name == name || r[k].name in Names(es))
    && IdOf(r, name) == Some(if IdOf(es, name).Some? && IdOf(es, name).value < id then IdOf(es, name).value else id)
    && (forall n :: n != name ==> IdOf(r, n) == IdOf(es, n))
  }

  /** Inserting keeps the names strictly ordered and adds no name but the
      inserted one; the name's id becomes the lower of the old and new ids,
      and every other name keeps its id. */
  lemma InsertSpec(es: seq<Entry>, name: string, id: int)
    requires Sorted(es)
    ensures Sorted(Insert(es, name, id))
    ensures forall k :: 0 <= k < |Insert(es, name, id)| ==>
      Insert(es, name, id)[k].name == name || Insert(es, name, id)[k].name in Names(es)
    ensures IdOf(Insert(es, name, id), name) ==
      Some(if IdOf(es, name).Some? && IdOf(es, name).value < id then IdOf(es, name).value else id)
    ensures forall n :: n != name ==> IdOf(Insert(es, name, id), n) == IdOf(es, n)
  {
    InsertCorrect(es, name, id);
  }

  lemma {:induction false} InsertCorrect(es: seq<Entry>, name: string, id: int)
    requires Sorted(es)
    ensures Inserted(es, name, id, Insert(es, name, id))
  {
    var r := Insert(es, name, id);
    if es == [] {
    } else if es[0].name == name {
      assert r[1..] == es[1..];
      assert forall k :: 1 <= k < |es| ==> es[k].name in Names(es);
    } else if Less(name, es[0].name) {
      InsertBeforeHead(es, name, id);
    } else {
      LessTotal(name, es[0].name);
      InsertCorrect(es[1..], name, id);
      assert es == [es[0]] + es[1..];
      ConsInserted(es[0], es[1..], name, id, Insert(es[1..], name, id));
    }
  }

  /** The case of `InsertCorrect` where the name sorts before the head. */
  lemma InsertBeforeHead(es: seq<Entry>, name: string, id: int)
    requires Sorted(es) && es != [] && Less(name, es[0].name)
    ensures Inserted(es, name, id, Insert(es, name, id))
  {
    var r := Insert(es, name, id);
    AbsentBeforeHead(es, name);
    assert r[1..] == es;
    forall i, j | 0 <= i < j < |r|
      ensures Less(r[i].name, r[j].name)
    {
      if i == 0 && j > 1 {
        LessTransitive(name, es[0].name, es[j - 1].name);
      }
    }
    assert forall k :: 1 <= k < |r| ==> r[k] == es[k - 1];
  }

  /** The case of `InsertCorrect` where the name sorts after the head: the
      head stays in front of the tail's insertion. */
  lemma ConsInserted(e: Entry, tail: seq<Entry>, name: string, id: int, rt: seq<Entry>)
    requires Sorted([e] + tail) && e.name != name && Less(e.name, name)
    requires Inserted(tail, name, id, rt)
    ensures Inserted([e] + tail, name, id, [e] + rt)
  {
    ConsIds(e, tail, name, id, rt);
    ConsNames(e, tail, name, rt);
    ConsHeadLess(e, tail, name, rt);
    ConsSorted(e, rt);
  }

  lemma ConsIds(e: Entry, tail: seq<Entry>, name: string, id: int, rt: seq<Entry>)
    requires e.name != name
    requires IdOf(rt, name) == Some(if IdOf(tail, name).Some? && IdOf(tail, name).value < id then IdOf(tail, name).value else id)
    requires forall n :: n != name ==> IdOf(rt, n) == IdOf(tail, n)
    ensures IdOf([e] + rt, name) ==
      Some(if IdOf([e] + tail, name).Some? && IdOf([e] + tail, name).value < id then IdOf([e] + tail, name).value else id)
    ensures forall n :: n != name ==> IdOf([e] + rt, n) == IdOf([e] + tail, n)
  {
    assert ([e] + rt)[1..] == rt && ([e] + tail)[1..] == tail;
  }

  lemma ConsNames(e: Entry, tail: seq<Entry>, name: string, rt: seq<Entry>)
    requires forall k :: 0 <= k < |rt| ==> rt[k].name == name || rt[k].name in Names(tail)
    ensures forall k :: 0 <= k < |[e] + rt| ==> ([e] + rt)[k].name == name || ([e] + rt)[k].name in Names([e] + tail)
  {
    var es := [e] + tail;
    var r := [e] + rt;
    forall k | 0 <= k < |r|
      ensures r[k].name == name || r[k].name in Names(es)
    {
      if k == 0 {
        assert es[0] == e;
      } else if rt[k - 1].name != name {
        var m :| 0 <= m < |tail| && tail[m].name == rt[k - 1].name;
        assert es[m + 1] == tail[m];
      }
    }
  }

  lemma ConsHeadLess(e: Entry, tail: seq<Entry>, name: string, rt: seq<Entry>)
    requires Sorted([e] + tail) && Less(e.name, name)
    requires forall k :: 0 <= k < |rt| ==> rt[k].name == name || rt[k].name in Names(tail)
    ensures forall k :: 0 <= k < |rt| ==> Less(e.name, rt[k].name)
  {
    var es := [e] + tail;
    forall k | 0 <= k < |rt|
      ensures Less(e.name, rt[k].name)
    {
      if rt[k].name != name {
        var m :| 0 <= m < |tail| && tail[m].name == rt[k].name;
        assert es[0] == e && es[m + 1] == tail[m];
      }
    }
  }

  lemma ConsSorted(e: Entry, es: seq<Entry>)
    requires Sorted(es) && forall k :: 0 <= k < |es| ==> Less(e.name, es[k].name)
    ensures Sorted([e] + es)
  {
    var r := [e] + es;
    forall i, j | 0 <= i < j < |r|
      ensures Less(r[i].name, r[j].name)
    {
      assert r[j] == es[j - 1];
      if i > 0 {
        assert r[i] == es[i - 1];
      }
    }
  }

  /** `es` is a correct picker list for the processes `cs`: sorted names,
      each name carried by a listed process whose id it holds, and no listed
      process of that name with a lower id or missing from the list. */
  ghost predicate Describes(cs: seq<Candidate>, es: seq<Entry>) {
    && Sorted(es)
    && (forall n :: IdOf(es, n).Some? ==>
         exists i :: 0 <= i < |cs| && Listed(cs[i]) && cs[i].name == Some(n) && cs[i].id == IdOf(es, n).value)
    && (forall n, i :: 0 <= i < |cs| && Listed(cs[i]) && cs[i].name == Some(n) ==>
         IdOf(es, n).Some? && IdOf(es, n).value <= cs[i].id)
  }

  /** The picker's contract: the names are in strictly increasing ordinal
      order, a name is listed exactly when some listed process carries it,
      and its item is the process with the lowest id among them. */
  lemma {:induction false} PickerSpec(cs: seq<Candidate>)
    ensures Sorted(Picker(cs))
    ensures forall n :: IdOf(Picker(cs), n).Some? <==>
      exists i :: 0 <= i < |cs| && Listed(cs[i]) && cs[i].name == Some(n)
    ensures forall n :: IdOf(Picker(cs), n).Some? ==>
      exists i :: 0 <= i < |cs| && Listed(cs[i]) && cs[i].name == Some(n) && cs[i].id == IdOf(Picker(cs), n).value
    ensures forall n, i :: 0 <= i < |cs| && Listed(cs[i]) && cs[i].name == Some(n) ==>
      IdOf(Picker(cs), n).Some? && IdOf(Picker(cs), n).value <= cs[i].id
  {
    PickerDescribes(cs);
  }

  lemma {:induction false} PickerDescribes(cs: seq<Candidate>)
    ensures Describes(cs, Picker(cs))
  {
    if cs != [] {
      var init := cs[..|cs| - 1];
      PickerDescribes(init);
      PickerStep(cs, Picker(init));
    }
  }

  /** One step of the picker: adding the last process to a correct list for
      the others gives a correct list for all of them. */
  lemma PickerStep(cs: seq<Candidate>, es: seq<Entry>)
    requires cs != [] && Describes(cs[..|cs| - 1], es)
    ensures Describes(cs, if Listed(cs[|cs| - 1]) then Insert(es, cs[|cs| - 1].name.value, cs[|cs| - 1].id) else es)
  {
    var init := cs[..|cs| - 1];
    var c := cs[|cs| - 1];
    assert forall i :: 0 <= i < |init| ==> init[i] == cs[i];
    if Listed(c) {
      InsertSpec(es, c.name.value, c.id);
      var r := Insert(es, c.name.value, c.id);
      forall n | IdOf(r, n).Some?
        ensures exists i :: 0 <= i < |cs| && Listed(cs[i]) && cs[i].name == Some(n) && cs[i].id == IdOf(r, n).value
      {
        if n == c.name.value && IdOf(r, n).value == c.id {
          assert cs[|cs| - 1] == c;
        } else {
          var i :| 0 <= i < |init| && Listed(init[i]) && init[i].name == Some(n) && init[i].id == IdOf(es, n).value;
          assert cs[i] == init[i];
        }
      }
      forall n, i | 0 <= i < |cs| && Listed(cs[i]) && cs[i].name == Some(n)
        ensures IdOf(r, n).Some? && IdOf(r, n).value <= cs[i].id
      {
        if i < |init| {
          assert init[i] == cs[i];
        }
      }
    } else {
      forall n | IdOf(es, n).Some?
        ensures exists i :: 0 <= i < |cs| && Listed(cs[i]) && cs[i].name == Some(n) && cs[i].id == IdOf(es, n).value
      {
        var i :| 0 <= i < |init| && Listed(init[i]) && init[i].name == Some(n) && init[i].id == IdOf(es, n).value;
        assert cs[i] == init[i];
      }
      forall n, i | 0 <= i < |cs| && Listed(cs[i]) && cs[i].name == Some(n)
        ensures IdOf(es, n).Some? && IdOf(es, n).value <= cs[i].id
      {
        assert i < |init| && init[i] == cs[i];
      }
    }
  }

  /** In a sorted list every item is the one `IdOf` finds for its name. */
  lemma {:induction false} SortedItemsAreFound(es: seq<Entry>, k: int)
    requires Sorted(es) && 0 <= k < |es|
    ensures IdOf(es, es[k].name) == Some(es[k].id)
  {
    if k > 0 {
      LessIrreflexive(es[0].name);
      assert Less(es[0].name, es[k].name);
      SortedItemsAreFound(es[1..], k - 1);
    }
  }

  /** Some listed process has the item's name and id. */
  predicate Represents(cs: seq<Candidate>, e: Entry) {
    exists i :: 0 <= i < |cs| && Listed(cs[i]) && cs[i].name == Some(e.name) && cs[i].id == e.id
  }

  /** No listed process of the item's name has a lower id. */
  predicate Lowest(cs: seq<Candidate>, e: Entry) {
    forall j :: 0 <= j < |cs| && Listed(cs[j]) && cs[j].name == Some(e.name) ==> e.id <= cs[j].id
  }

  /** The combo box items, one by one: each is a listed process whose id
      is the lowest among the listed processes of its name, and every listed
      process has its name in the box. */
  lemma PickerItems(cs: seq<Candidate>)
    ensures forall k :: 0 <= k < |Picker(cs)| ==> Represents(cs, Picker(cs)[k]) && Lowest(cs, Picker(cs)[k])
    ensures forall i :: 0 <= i < |cs| && Listed(cs[i]) ==>
      exists k :: 0 <= k < |Picker(cs)| && Picker(cs)[k].name == cs[i].name.value
  {
    var es := Picker(cs);
    PickerSpec(cs);
    forall k | 0 <= k < |es|
      ensures Represents(cs, es[k]) && Lowest(cs, es[k])
    {
      SortedItemsAreFound(es, k);
    }
    forall i | 0 <= i < |cs| && Listed(cs[i])
      ensures exists k :: 0 <= k < |es| && es[k].name == cs[i].name.value
    {
      var k := FindIndex(es, cs[i].name.value);
    }
  }

  // ---------------------------------------------------------------------
  // The sampling rate

  /** `SamplingRateComboBox_SelectionChanged`: the first of "500", "1000"
      and "2000" the item's text contains picks the interval. */
  function ChooseInterval(content: string): (ms: Option<int>)
    ensures ms.Some? ==> ms.value in {500, 1000, 2000}
    ensures Contains(content, "500") <==> ms == Some(500)
    ensures ms == Some(1000) <==> !Contains(content, "500") && Contains(content, "1000")
    ensures ms == Some(2000) <==> !Contains(content, "500") && !Contains(content, "1000") && Contains(content, "2000")
    ensures ms.None? <==> !Contains(content, "500") && !Contains(content, "1000") && !Contains(content, "2000")
  {
    if Contains(content, "500") then Some(500)
    else if Contains(content, "1000") then Some(1000)
    else if Contains(content, "2000") then Some(2000)
    else None
  }

  /** Containment is tested first for "500", so an item reading "1500 ms"
      selects 500 ms. */
  lemma FifteenHundredSelectsFiveHundred()
    ensures ChooseInterval("1500 ms") == Some(500)
  {
    ContainsAt("1500 ms", "500", 1);
  }

  // ---------------------------------------------------------------------
  // The window

  datatype StartResult = PleaseSelect | Started

  class MainWindow {
    var items: seq<Entry>
    var collected: seq<Sample>
    var selectedName: Option<string>
    var startEnabled: bool
    var stopEnabled: bool
    const chart: ChartDataManager
    const profiler: ProfilerService

    predicate Valid()
      reads this, profiler
    {
      chart.Valid() && profiler.Valid()
    }

    /** The constructor: loads the process list and creates the charts.
        The buttons' initial state comes from the window's markup. */
    constructor (cs: seq<Candidate>, profiler: ProfilerService, startEnabled: bool, stopEnabled: bool)
      requires profiler.Valid()
      ensures Valid() && this.profiler == profiler && fresh(chart)
      ensures items == Picker(cs) && collected == [] && selectedName.None?
      ensures this.startEnabled == startEnabled && this.stopEnabled == stopEnabled
      ensures chart.cpuValues.items == [] && chart.memoryValues.items == []
      ensures chart.diskValues.items == [] && chart.networkValues.items == []
    {
      items := Picker(cs);
      collected := [];
      selectedName := None;
      this.startEnabled := startEnabled;
      this.stopEnabled := stopEnabled;
      chart := new ChartDataManager();
      this.profiler := profiler;
    }

    /** `LoadProcesses`: fills the combo box from the picker pipeline. */
    method LoadProcesses(cs: seq<Candidate>)
      modifies this
      ensures items == Picker(cs)
      ensures collected == old(collected) && selectedName == old(selectedName)
      ensures startEnabled == old(startEnabled) && stopEnabled == old(stopEnabled)
    {
      items := Picker(cs);
    }

    /** `StartButton_Click`: the selected item's name becomes the selection
        (null when nothing is selected, which only shows a message);
        otherwise the handler is subscribed, the group is started, the
        collected samples are cleared and the buttons swap. */
    method StartClick(selection: Option<Entry>, processors: Option<seq<ProcessorRow>>,
                      caches: Option<seq<CacheRow>>, processorCount: int)
      returns (r: StartResult)
      requires Valid()
      modifies this, profiler
      ensures Valid()
      ensures selection.None? ==> selectedName.None?
      ensures selection.Some? ==> selectedName == Some(selection.value.name)
      ensures r == PleaseSelect <==> selection.None?
      ensures r == PleaseSelect ==>
        && collected == old(collected) && startEnabled == old(startEnabled) && stopEnabled == old(stopEnabled)
        && unchanged(profiler)
      ensures r == Started ==>
        && collected == [] && !startEnabled && stopEnabled
        && profiler.isRunning && profiler.selectedName == selectedName
        && profiler.subscriptions == old(profiler.subscriptions) + 1
        && profiler.timer == Some(TimerState(InitialIntervalMs, true, false))
        && profiler.staticInfo == Some(Populate(processors, caches, processorCount))
        && profiler.strayTimers == old(profiler.strayTimers)
             + (if old(profiler.timer).Some? && old(profiler.timer).value.enabled then 1 else 0)
        && unchanged(profiler`lastCpuMs, profiler`lastCpuCheckTime, profiler`buffer, profiler`isSampling)
      ensures items == old(items)
    {
      selectedName := if selection.Some? then Some(selection.value.name) else None;
      if selectedName.None? {
        return PleaseSelect;
      }
      profiler.Subscribe();
      profiler.StartGroup(selectedName.value, processors, caches, processorCount);
      collected := [];
      startEnabled := false;
      stopEnabled := true;
      r := Started;
    }

    /** `StopButton_Click`: stops the service, unsubscribes the handler and
        swaps the buttons back. */
    method StopClick()
      requires Valid()
      modifies this, profiler
      ensures Valid()
      ensures !profiler.isRunning && profiler.timer == Stopped(old(profiler.timer))
      ensures profiler.subscriptions == if old(profiler.subscriptions) > 0 then old(profiler.subscriptions) - 1 else 0
      ensures startEnabled && !stopEnabled
      ensures collected == old(collected) && items == old(items) && selectedName == old(selectedName)
      ensures unchanged(profiler`buffer, profiler`lastCpuMs, profiler`lastCpuCheckTime, profiler`isSampling)
      ensures unchanged(profiler`staticInfo, profiler`selectedName, profiler`strayTimers)
    {
      profiler.Stop();
      profiler.Unsubscribe();
      startEnabled := true;
      stopEnabled := false;
    }

    /** `SamplingRateComboBox_SelectionChanged`: `content` is the selected
        item's text, `None` when the selection is not a `ComboBoxItem`. */
    method SamplingRateChanged(content: Option<string>) returns (r: Option<IntervalResult>)
      requires Valid()
      modifies profiler
      ensures Valid()
      ensures r.Some? <==> content.Some? && ChooseInterval(content.value).Some?
      ensures r.None? ==> profiler.timer == old(profiler.timer)
      ensures r.Some? ==> r.value == IntervalSet
      ensures r.Some? && old(profiler.timer).Some? ==>
        profiler.timer == Some(old(profiler.timer).value.(intervalMs := ChooseInterval(content.value).value))
      ensures old(profiler.timer).None? ==> profiler.timer.None?
      ensures unchanged(profiler`isRunning, profiler`isSampling, profiler`buffer, profiler`subscriptions)
      ensures unchanged(profiler`lastCpuMs, profiler`lastCpuCheckTime, profiler`staticInfo)
      ensures unchanged(profiler`selectedName, profiler`strayTimers)
    {
      if content.None? {
        return None;
      }
      var ms := ChooseInterval(content.value);
      if ms.None? {
        return None;
      }
      var result := profiler.SetSamplingInterval(ms.value);
      r := Some(result);
    }

    /** `ProfilerService_OnSampleReceived`: records the sample and puts its
        CPU, memory, disk and network figures on the charts. */
    method OnSampleReceived(data: Sample)
      requires chart.Valid()
      modifies this, chart.cpuValues, chart.memoryValues, chart.diskValues, chart.networkValues
      ensures collected == old(collected) + [data]
      ensures chart.cpuValues.items == Pushed(old(chart.cpuValues.items), data.cpuUsage)
      ensures chart.memoryValues.items == Pushed(old(chart.memoryValues.items), data.memoryUsage)
      ensures chart.diskValues.items == Pushed(old(chart.diskValues.items), data.diskIO)
      ensures chart.networkValues.items == Pushed(old(chart.networkValues.items), data.networkUsage)
      ensures items == old(items) && selectedName == old(selectedName)
      ensures startEnabled == old(startEnabled) && stopEnabled == old(stopEnabled)
    {
      collected := collected + [data];
      chart.Update(data.cpuUsage, data.memoryUsage, data.diskIO, data.networkUsage);
    }

    /** One timer tick seen from the window: the service samples, and an
        emitted sample reaches the handler once per subscription. */
    method DeliverTick(named: seq<ProcessReading>, timestamp: DateTime, currentTime: DateTime,
                       processorCount: int, processCount: int, gc0: int, gc1: int, gc2: int)
      returns (outcome: TickOutcome)
      requires Valid()
      modifies this, profiler, profiler.disk
      modifies chart.cpuValues, chart.memoryValues, chart.diskValues, chart.networkValues
      ensures Valid()
      ensures Ticked(profiler, outcome, named, timestamp, currentTime, processorCount, processCount, gc0, gc1, gc2)
      ensures profiler.buffer == if outcome.Emitted? then Enqueued(old(profiler.buffer), outcome.sample)
                                 else old(profiler.buffer)
      ensures !outcome.Emitted? ==> collected == old(collected)
      ensures !outcome.Emitted? ==>
        unchanged(chart.cpuValues, chart.memoryValues, chart.diskValues, chart.networkValues)
      ensures outcome.Emitted? ==>
        var n := profiler.subscriptions;
        && collected == old(collected) + seq(n, _ => outcome.sample)
        && chart.cpuValues.items == PushRepeat(old(chart.cpuValues.items), outcome.sample.cpuUsage, n)
        && chart.memoryValues.items == PushRepeat(old(chart.memoryValues.items), outcome.sample.memoryUsage, n)
        && chart.diskValues.items == PushRepeat(old(chart.diskValues.items), outcome.sample.diskIO, n)
        && chart.networkValues.items == PushRepeat(old(chart.networkValues.items), outcome.sample.networkUsage, n)
      ensures unchanged(profiler`subscriptions, profiler`isSampling, profiler`isRunning, profiler`timer)
      ensures unchanged(profiler`selectedName, profiler`staticInfo, profiler`strayTimers)
      ensures items == old(items) && selectedName == old(selectedName)
      ensures startEnabled == old(startEnabled) && stopEnabled == old(stopEnabled)
    {
      outcome := profiler.Tick(named, timestamp, currentTime, processorCount, processCount, gc0, gc1, gc2);
      if outcome.Emitted? {
        Broadcast(outcome.sample, profiler.subscriptions);
      }
    }

    /** `OnSampleReceived?.Invoke(data)` with `n` handlers attached: the
        window's handler runs `n` times, so the sample is collected `n`
        times. */
    method Broadcast(data: Sample, n: nat)
      requires chart.Valid()
      modifies this, chart.cpuValues, chart.memoryValues, chart.diskValues, chart.networkValues
      ensures collected == old(collected) + seq(n, _ => data)
      ensures chart.cpuValues.items == PushRepeat(old(chart.cpuValues.items), data.cpuUsage, n)
      ensures chart.memoryValues.items == PushRepeat(old(chart.memoryValues.items), data.memoryUsage, n)
      ensures chart.diskValues.items == PushRepeat(old(chart.diskValues.items), data.diskIO, n)
      ensures chart.networkValues.items == PushRepeat(old(chart.networkValues.items), data.networkUsage, n)
      ensures items == old(items) && selectedName == old(selectedName)
      ensures startEnabled == old(startEnabled) && stopEnabled == old(stopEnabled)
    {
      ghost var c, m, d, w := chart.cpuValues.items, chart.memoryValues.items, chart.diskValues.items, chart.networkValues.items;
      var k := 0;
      while k < n
        invariant 0 <= k <= n
        invariant collected == old(collected) + Copies(data, k)
        invariant chart.cpuValues.items == PushRepeat(c, data.cpuUsage, k)
        invariant chart.memoryValues.items == PushRepeat(m, data.memoryUsage, k)
        invariant chart.diskValues.items == PushRepeat(d, data.diskIO, k)
        invariant chart.networkValues.items == PushRepeat(w, data.networkUsage, k)
        invariant items == old(items) && selectedName == old(selectedName)
        invariant startEnabled == old(startEnabled) && stopEnabled == old(stopEnabled)
      {
        OnSampleReceived(data);
        k := k + 1;
      }
      CopiesAreConstant(data, n);
    }

    /** `ExportSamples_Click`: exports the collected samples. */
    method ExportSamplesClick(accepted: bool, fmt: FloatFormatter) returns (r: ExportResult)
      ensures r == NoSamples <==> collected == []
      ensures r == Cancelled <==> collected != [] && !accepted
      ensures r.Written? ==> |r.lines| == |collected| + 1 && r.lines[0] == SamplesHeader
      ensures r.Written? ==> forall i :: 0 <= i < |collected| ==> r.lines[i + 1] == ToCsv(collected[i], fmt)
    {
      r := ExportProfilingSamplesToCsv(Some(collected), accepted, fmt);
    }
  }

  /** `k` copies of `v`, one per handler invocation. */
  ghost function Copies<T>(v: T, k: nat): seq<T> {
    if k == 0 then [] else Copies(v, k - 1) + [v]
  }

  lemma {:induction false} CopiesAreConstant<T>(v: T, k: nat)
    ensures Copies(v, k) == seq(k, _ => v)
  {
    if k > 0 {
      CopiesAreConstant(v, k - 1);
      assert seq(k, _ => v) == seq(k - 1, _ => v) + [v];
    }
  }

  /** The position of `name` in a list that holds it. */
  function FindIndex(es: seq<Entry>, name: string): (k: int)
    requires IdOf(es, name).Some?
    ensures 0 <= k < |es| && es[k].name == name && es[k].id == IdOf(es, name).value
  {
    if es[0].name == name then 0 else 1 + FindIndex(es[1..], name)
  }
}
