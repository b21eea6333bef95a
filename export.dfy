/** `ExportService`: writing the collected samples, or the system
    description, to a CSV file the user picks. A written file is modelled as
    its sequence of lines; the save dialog is the `accepted` input. */
module Export {
  import opened Common
  import opened Text
  import opened Clock
  import opened ProfilingDataStats

  /** What an export did. */
  datatype ExportResult =
    | NoSamples                 // "No samples collected yet." was shown
    | Cancelled                 // the save dialog was dismissed
    | Written(lines: seq<string>)

  /** The `foreach` that writes one line per row after the lines already
      written: the earlier lines stay, and the row lines follow in row
      order. */
  method WriteLines<T>(written: seq<string>, rows: seq<T>, line: T -> string) returns (lines: seq<string>)
    ensures |lines| == |written| + |rows| && lines[..|written|] == written
    ensures forall k :: 0 <= k < |rows| ==> lines[|written| + k] == line(rows[k])
  {
    lines := written;
    var i := 0;
    while i < |rows|
      invariant 0 <= i <= |rows|
      invariant |lines| == |written| + i && lines[..|written|] == written
      invariant forall k :: 0 <= k < i ==> lines[|written| + k] == line(rows[k])
    {
      lines := lines + [line(rows[i])];
      i := i + 1;
    }
  }

  // ---------------------------------------------------------------------
  // Samples

  const SampleColumns: seq<string> :=
    ["Timestamp", "CPU (%)", "Memory (MB)", "Disk (MB/s)", "Network (KB/s)", "Threads", "Processes"]

  /** The header line of a samples export. */
  const SamplesHeader: string := JoinCommas(SampleColumns)

  /** The header names the same seven columns, in the same order, that
      every data line carries. */
  lemma HeaderMatchesRows(data: Sample, fmt: FloatFormatter)
    requires CommaFree(fmt)
    ensures SplitCommas(SamplesHeader) == SampleColumns
    ensures |SplitCommas(ToCsv(data, fmt))| == |SampleColumns|
  {
    assert forall k :: 0 <= k < |SampleColumns| ==> ',' !in SampleColumns[k] by {
      assert ',' !in "Timestamp" && ',' !in "CPU (%)" && ',' !in "Memory (MB)";
      assert ',' !in "Disk (MB/s)" && ',' !in "Network (KB/s)" && ',' !in "Threads";
      assert ',' !in "Processes";
    }
    SplitJoinCommas(SampleColumns);
    CsvFields(data, fmt);
  }

  /** `ExportProfilingSamplesToCsv`: nothing to export for a null or empty
      list; otherwise, once a file is chosen, the header followed by one
      `ToCsv` line per sample, in collection order. */
  method ExportProfilingSamplesToCsv(samples: Option<seq<Sample>>, accepted: bool, fmt: FloatFormatter)
    returns (r: ExportResult)
    ensures r == NoSamples <==> samples.None? || samples.value == []
    ensures r == Cancelled <==> samples.Some? && samples.value != [] && !accepted
    ensures r.Written? ==> |r.lines| == |samples.value| + 1 && r.lines[0] == SamplesHeader
    ensures r.Written? ==> forall i :: 0 <= i < |samples.value| ==> r.lines[i + 1] == ToCsv(samples.value[i], fmt)
  {
    if samples.None? || |samples.value| == 0 {
      return NoSamples;
    }
    if !accepted {
      return Cancelled;
    }
    var lines := WriteLines([SamplesHeader], samples.value, (data: Sample) => ToCsv(data, fmt));
    r := Written(lines);
  }

  /** Every data line of a samples export starts with the sample's
      timestamp, which reads back as that instant to the second. */
  lemma ExportedTimestampsReadBack(samples: seq<Sample>, lines: seq<string>, fmt: FloatFormatter, i: int)
    requires |lines| == |samples| + 1
    requires forall k :: 0 <= k < |samples| ==> lines[k + 1] == ToCsv(samples[k], fmt)
    requires 0 <= i < |samples|
    ensures |lines[i + 1]| >= 19
    ensures ConverterRead(lines[i + 1][..19]) == Some(TruncateToSecond(samples[i].timestamp))
  {
    CsvTimestampReadsBack(samples[i], fmt);
  }

  // ---------------------------------------------------------------------
  // System description

  /** `SystemInfoService.SystemInfo`: every property may be null. */
  datatype SystemInfo = SystemInfo(
    cpuModel: Option<string>,
    clockSpeed: Option<string>,
    physicalCores: Option<string>,
    logicalCores: Option<string>,
    totalRam: Option<string>,
    osVersion: Option<string>,
    architecture: Option<string>,
    virtualization: Option<string>,
    uptime: Option<string>,
    gpuName: Option<string>,
    drives: seq<string>,
    motherboard: Option<string>,
    osExtra: Option<string>
  )

  const InfoHeader: string := "Category,Property,Value"

  /** A string hole of an interpolated string: null renders as nothing. */
  function Render(value: Option<string>): (s: string)
    ensures value.Some? ==> s == value.value
    ensures value.None? ==> s == ""
  {
    match value
    case None => ""
    case Some(v) => v
  }

  /** The local `Write(category, prop, val)`: the value is put between
      double quotes as it is, with no escaping. */
  function InfoRow(category: string, property: string, value: string): string {
    category + "," + property + ",\"" + value + "\""
  }

  /** A row of the system export, split back into its three cells. */
  datatype InfoRecord = InfoRecord(category: string, property: string, value: string)

  /** Reads a row back: the text up to the first comma, the text up to
      the next comma, and the rest with its surrounding quotes removed. */
  function ParseInfoRow(line: string): (r: Option<InfoRecord>)
    ensures r.Some? ==> ',' !in r.value.category && ',' !in r.value.property
  {
    if ',' !in line then None
    else
      var i := FirstComma(line);
      var rest := line[i + 1..];
      if ',' !in rest then None
      else
        var j := FirstComma(rest);
        var quoted := rest[j + 1..];
        if |quoted| >= 2 && quoted[0] == '"' && quoted[|quoted| - 1] == '"' then
          Some(InfoRecord(line[..i], rest[..j], quoted[1..|quoted| - 1]))
        else None
  }

  lemma FirstCommaAfter(a: string, b: string)
    requires ',' !in a
    ensures ',' in a + "," + b && FirstComma(a + "," + b) == |a|
    ensures (a + "," + b)[..|a|] == a && (a + "," + b)[|a| + 1..] == b
  {
    var s := a + "," + b;
    assert s[|a|] == ',';
    assert s[..|a|] == a;
  }

  /** A row reads back as the cells it was written from, whatever the value
      holds (commas and quotes included), as long as the category and the
      property hold no comma. */
  lemma InfoRowRoundTrip(category: string, property: string, value: string)
    requires ',' !in category && ',' !in property
    ensures ParseInfoRow(InfoRow(category, property, value)) == Some(InfoRecord(category, property, value))
  {
    var quoted := "\"" + value + "\"";
    var rest := property + "," + quoted;
    var line := category + "," + rest;
    assert InfoRow(category, property, value) == line;
    assert ',' in line && line[..FirstComma(line)] == category && line[FirstComma(line) + 1..] == rest by {
      FirstCommaAfter(category, rest);
    }
    assert ',' in rest && rest[..FirstComma(rest)] == property && rest[FirstComma(rest) + 1..] == quoted by {
      FirstCommaAfter(property, quoted);
    }
    assert |quoted| >= 2 && quoted[0] == '"' && quoted[|quoted| - 1] == '"' && quoted[1..|quoted| - 1] == value;
  }

  /** The twelve fixed rows, in the order they are written. */
  function FixedInfoRows(info: SystemInfo): (rows: seq<string>)
    ensures |rows| == 12
  {
    [ InfoRow("CPU", "Model", Render(info.cpuModel)),
      InfoRow("CPU", "Clock Speed", Render(info.clockSpeed)),
      InfoRow("CPU", "Cores", Render(info.physicalCores)),
      InfoRow("CPU", "Logical Processors", Render(info.logicalCores)),
      InfoRow("Memory", "Total RAM", Render(info.totalRam)),
      InfoRow("OS", "Version", Render(info.osVersion)),
      InfoRow("OS", "Architecture", Render(info.architecture)),
      InfoRow("OS", "Virtualization", Render(info.virtualization)),
      InfoRow("OS", "Uptime", Render(info.uptime)),
      InfoRow("OS", "Extras", Render(info.osExtra)),
      InfoRow("GPU", "Name", Render(info.gpuName)),
      InfoRow("Motherboard", "Info", Render(info.motherboard)) ]
  }

  /** `ExportSystemInfoToCsv`: once a file is chosen, the header, the twelve
      fixed rows and one `Drive,Detail` row per drive, in list order. */
  method ExportSystemInfoToCsv(info: SystemInfo, accepted: bool) returns (r: ExportResult)
    ensures !accepted <==> r == Cancelled
    ensures r != NoSamples
    ensures r.Written? ==> |r.lines| == 13 + |info.drives|
    ensures r.Written? ==> r.lines[0] == InfoHeader && r.lines[1..13] == FixedInfoRows(info)
    ensures r.Written? ==> forall k :: 0 <= k < |info.drives| ==>
      r.lines[13 + k] == InfoRow("Drive", "Detail", info.drives[k])
  {
    if !accepted {
      return Cancelled;
    }
    var lines := [InfoHeader];
    lines := lines + [InfoRow("CPU", "Model", Render(info.cpuModel))];
    lines := lines + [InfoRow("CPU", "Clock Speed", Render(info.clockSpeed))];
    lines := lines + [InfoRow("CPU", "Cores", Render(info.physicalCores))];
    lines := lines + [InfoRow("CPU", "Logical Processors", Render(info.logicalCores))];
    lines := lines + [InfoRow("Memory", "Total RAM", Render(info.totalRam))];
    lines := lines + [InfoRow("OS", "Version", Render(info.osVersion))];
    lines := lines + [InfoRow("OS", "Architecture", Render(info.architecture))];
    lines := lines + [InfoRow("OS", "Virtualization", Render(info.virtualization))];
    lines := lines + [InfoRow("OS", "Uptime", Render(info.uptime))];
    lines := lines + [InfoRow("OS", "Extras", Render(info.osExtra))];
    lines := lines + [InfoRow("GPU", "Name", Render(info.gpuName))];
    lines := lines + [InfoRow("Motherboard", "Info", Render(info.motherboard))];
    assert |lines| == 13 && lines[1..13] == FixedInfoRows(info);
    var all := WriteLines(lines, info.drives, (drive: string) => InfoRow("Drive", "Detail", drive));
    assert all[1..13] == all[..13][1..13] == lines[1..13];
    r := Written(all);
  }

  /** Every drive row of a system export reads back as that drive's text. */
  lemma DriveRowsReadBack(drive: string)
    ensures ParseInfoRow(InfoRow("Drive", "Detail", drive)) == Some(InfoRecord("Drive", "Detail", drive))
  {
    InfoRowRoundTrip("Drive", "Detail", drive);
  }
}
