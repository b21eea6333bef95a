/** `ProfilingDataStats`: one aggregate sample, its CSV line, the
    `yyyy-MM-dd HH:mm:ss` timestamp layout shared by the CSV line and the
    JSON date converter, and the one-line appends of `SaveToCsv` and
    `SaveToJson`. */
module ProfilingDataStats {
  import opened Common
  import opened Text
  import opened Clock

  /** A sample record. C# `float` properties are `Float`, `int` properties
      `int`, and the nullable strings `Option<string>`. */
  datatype Sample = Sample(
    processName: Option<string>,
    processId: int,
    timestamp: DateTime,
    cpuUsage: Float,
    logicalProcessorCount: int,
    physicalCoreCount: int,
    clockSpeedMHz: int,
    virtualizationStatus: Option<string>,
    l1CacheKB: int,
    l2CacheKB: int,
    l3CacheKB: int,
    memoryUsage: Float,
    gcGen0Collections: int,
    gcGen1Collections: int,
    gcGen2Collections: int,
    privateMemoryUsage: Float,
    gpuUsagePercent: Float,
    gpuTempC: Float,
    gpuClockMHz: Float,
    gpuMemoryMB: Float,
    diskIO: Float,
    networkUsage: Float,
    threadCount: int,
    processCount: int
  )

  /** `new ProfilingDataStats()`: every property at its default value. */
  const EmptySample: Sample := Sample(
    None, 0, Default, Finite(0.0), 0, 0, 0, None, 0, 0, 0,
    Finite(0.0), 0, 0, 0, Finite(0.0),
    Finite(0.0), Finite(0.0), Finite(0.0), Finite(0.0),
    Finite(0.0), Finite(0.0), 0, 0)

  /** How a `float` is rendered as text; the model leaves the culture's
      choice open and only asks that it never produce a comma (the
      invariant culture's decimal point is `.`). */
  type FloatFormatter = Float -> string

  ghost predicate CommaFree(fmt: FloatFormatter) {
    forall f :: ',' !in fmt(f)
  }

  // ---------------------------------------------------------------------
  // The "yyyy-MM-dd HH:mm:ss" layout

  /** The fixed layout: `y-mo-d h:mi:se`. */
  function Layout(y: string, mo: string, d: string, h: string, mi: string, se: string): string {
    y + "-" + mo + "-" + d + " " + h + ":" + mi + ":" + se
  }

  /** Digits and separators at the positions the layout fixes. */
  predicate HasTimestampLayout(s: string) {
    && |s| == 19
    && AllDigits(s[0..4]) && s[4] == '-'
    && AllDigits(s[5..7]) && s[7] == '-'
    && AllDigits(s[8..10]) && s[10] == ' '
    && AllDigits(s[11..13]) && s[13] == ':'
    && AllDigits(s[14..16]) && s[16] == ':'
    && AllDigits(s[17..19])
  }

  lemma LayoutSlices(y: string, mo: string, d: string, h: string, mi: string, se: string)
    requires |y| == 4 && |mo| == 2 && |d| == 2 && |h| == 2 && |mi| == 2 && |se| == 2
    ensures var s := Layout(y, mo, d, h, mi, se);
      && |s| == 19
      && s[0..4] == y && s[4] == '-' && s[5..7] == mo && s[7] == '-' && s[8..10] == d
      && s[10] == ' ' && s[11..13] == h && s[13] == ':' && s[14..16] == mi
      && s[16] == ':' && s[17..19] == se
  {
  }

  lemma LayoutOfSlices(s: string)
    requires HasTimestampLayout(s)
    ensures s == Layout(s[0..4], s[5..7], s[8..10], s[11..13], s[14..16], s[17..19])
  {
    var l := Layout(s[0..4], s[5..7], s[8..10], s[11..13], s[14..16], s[17..19]);
    LayoutSlices(s[0..4], s[5..7], s[8..10], s[11..13], s[14..16], s[17..19]);
    assert forall i :: 0 <= i < 19 ==> l[i] == s[i] by {
      forall i | 0 <= i < 19 ensures l[i] == s[i] {
        if i < 4 { assert l[i] == l[0..4][i]; }
        else if 5 <= i < 7 { assert l[i] == l[5..7][i - 5]; }
        else if 8 <= i < 10 { assert l[i] == l[8..10][i - 8]; }
        else if 11 <= i < 13 { assert l[i] == l[11..13][i - 11]; }
        else if 14 <= i < 16 { assert l[i] == l[14..16][i - 14]; }
        else if 17 <= i { assert l[i] == l[17..19][i - 17]; }
      }
    }
  }

  /** `value.ToString("yyyy-MM-dd HH:mm:ss")`: four-digit year, two-digit
      month, day, 24-hour hour, minute and second, all zero-padded;
      sub-second ticks are not shown. */
  function FormatTimestamp(t: DateTime): (s: string)
    ensures |s| == 19 && HasTimestampLayout(s)
    ensures ',' !in s
  {
    var y, mo, d := PadDigits(t.year, 4), PadDigits(t.month, 2), PadDigits(t.day, 2);
    var h, mi, se := PadDigits(t.hour, 2), PadDigits(t.minute, 2), PadDigits(t.second, 2);
    LayoutSlices(y, mo, d, h, mi, se);
    Layout(y, mo, d, h, mi, se)
  }

  /** `DateTime.ParseExact(s, "yyyy-MM-dd HH:mm:ss", null)`: `None` is the
      `FormatException` it throws for a string that does not follow the
      layout exactly or names a date or time that does not exist. */
  function ParseTimestamp(s: string): (r: Option<DateTime>)
    ensures r.Some? ==> HasTimestampLayout(s) && r.value.fraction == 0
  {
    if !HasTimestampLayout(s) then None
    else
      var t := CalendarTime(
        DigitsValue(s[0..4]), DigitsValue(s[5..7]), DigitsValue(s[8..10]),
        DigitsValue(s[11..13]), DigitsValue(s[14..16]), DigitsValue(s[17..19]), 0);
      if IsValid(t) then Some(t) else None
  }

  /** `DateTimeConverterUsingCustomFormat.Write`: the JSON string value of
      a timestamp. */
  function ConverterWrite(value: DateTime): (s: string)
    ensures |s| == 19 && HasTimestampLayout(s)
  {
    FormatTimestamp(value)
  }

  /** `DateTimeConverterUsingCustomFormat.Read`. */
  function ConverterRead(token: string): (r: Option<DateTime>)
    ensures r.Some? ==> HasTimestampLayout(token)
  {
    ParseTimestamp(token)
  }

  /** Writing a timestamp and reading it back gives the same instant
      truncated to whole seconds. */
  lemma ConverterRoundTrip(t: DateTime)
    ensures ConverterRead(ConverterWrite(t)) == Some(TruncateToSecond(t))
  {
    LayoutSlices(PadDigits(t.year, 4), PadDigits(t.month, 2), PadDigits(t.day, 2),
      PadDigits(t.hour, 2), PadDigits(t.minute, 2), PadDigits(t.second, 2));
    PadDigitsRoundTrip(t.year, 4);
    PadDigitsRoundTrip(t.month, 2);
    PadDigitsRoundTrip(t.day, 2);
    PadDigitsRoundTrip(t.hour, 2);
    PadDigitsRoundTrip(t.minute, 2);
    PadDigitsRoundTrip(t.second, 2);
  }

  /** Whatever `Read` accepts, `Write` reproduces character for character:
      accepted strings are exactly the rendered ones. */
  lemma ConverterReadThenWrite(token: string)
    requires ConverterRead(token).Some?
    ensures ConverterWrite(ConverterRead(token).value) == token
  {
    var s := token;
    PadDigitsOfValue(s[0..4]);
    PadDigitsOfValue(s[5..7]);
    PadDigitsOfValue(s[8..10]);
    PadDigitsOfValue(s[11..13]);
    PadDigitsOfValue(s[14..16]);
    PadDigitsOfValue(s[17..19]);
    LayoutOfSlices(s);
  }

  // ---------------------------------------------------------------------
  // CSV line

  /** Fields joined by single commas (C# string interpolation with `,`
      between the holes). */
  function JoinCommas(fields: seq<string>): (line: string)
    requires |fields| >= 1
    ensures |line| >= |fields[0]| && line[..|fields[0]|] == fields[0]
    ensures |fields| > 1 ==> |line| > |fields[0]| && line[|fields[0]|] == ','
  {
    if |fields| == 1 then fields[0] else fields[0] + "," + JoinCommas(fields[1..])
  }

  /** The seven CSV fields of a sample, in column order. */
  function CsvFieldsOf(data: Sample, fmt: FloatFormatter): (fields: seq<string>)
    ensures |fields| == 7
  {
    [FormatTimestamp(data.timestamp), fmt(data.cpuUsage), fmt(data.memoryUsage),
     fmt(data.diskIO), fmt(data.networkUsage),
     IntToString(data.threadCount), IntToString(data.processCount)]
  }

  /** `ToCsv()`: timestamp, cpu, memory, disk, network, threads and process
      count joined by commas. */
  function ToCsv(data: Sample, fmt: FloatFormatter): (line: string)
    ensures |line| >= 20 && line[..19] == FormatTimestamp(data.timestamp) && line[19] == ','
  {
    JoinCommas(CsvFieldsOf(data, fmt))
  }

  /** `s.Split(',')`: the comma-separated fields, empty ones kept. */
  function SplitCommas(s: string): (fields: seq<string>)
    ensures |fields| >= 1
    decreases |s|
  {
    if ',' !in s then [s]
    else
      var i := FirstComma(s);
      [s[..i]] + SplitCommas(s[i + 1..])
  }

  function FirstComma(s: string): (i: nat)
    requires ',' in s
    ensures i < |s| && s[i] == ',' && ',' !in s[..i]
  {
    if s[0] == ',' then 0
    else
      assert ',' in s[1..] by { var k :| 0 <= k < |s| && s[k] == ','; assert s[1..][k - 1] == ','; }
      var j := FirstComma(s[1..]);
      assert s[..j + 1] == [s[0]] + s[1..][..j];
      j + 1
  }

  lemma SplitCommasCons(a: string, b: string)
    requires ',' !in a
    ensures SplitCommas(a + "," + b) == [a] + SplitCommas(b)
  {
    var s := a + "," + b;
    assert s[|a|] == ',';
    var i := FirstComma(s);
    assert s[..i] == a;
    assert s[i + 1..] == b;
  }

  /** Splitting joined comma-free fields gives the fields back. */
  lemma {:induction false} SplitJoinCommas(fields: seq<string>)
    requires |fields| >= 1
    requires forall k :: 0 <= k < |fields| ==> ',' !in fields[k]
    ensures SplitCommas(JoinCommas(fields)) == fields
  {
    if |fields| == 1 {
      assert JoinCommas(fields) == fields[0] && ',' !in fields[0];
    } else {
      var rest := fields[1..];
      assert forall k :: 0 <= k < |rest| ==> ',' !in rest[k] by {
        forall k | 0 <= k < |rest| ensures rest[k] == fields[k + 1] { }
      }
      SplitJoinCommas(rest);
      assert JoinCommas(fields) == fields[0] + "," + JoinCommas(rest);
      SplitCommasCons(fields[0], JoinCommas(rest));
      assert fields == [fields[0]] + rest;
    }
  }

  /** Splitting a CSV line on commas gives back the seven fields in order,
      when the number formatter writes no comma. */
  lemma CsvFields(data: Sample, fmt: FloatFormatter)
    requires CommaFree(fmt)
    ensures SplitCommas(ToCsv(data, fmt)) == [
      FormatTimestamp(data.timestamp), fmt(data.cpuUsage), fmt(data.memoryUsage),
      fmt(data.diskIO), fmt(data.networkUsage),
      IntToString(data.threadCount), IntToString(data.processCount)]
  {
    SplitJoinCommas(CsvFieldsOf(data, fmt));
  }

  /** The CSV timestamp field is the converter's rendering of the same
      instant, so it reads back as that instant truncated to seconds. */
  lemma CsvTimestampReadsBack(data: Sample, fmt: FloatFormatter)
    ensures ConverterRead(ToCsv(data, fmt)[..19]) == Some(TruncateToSecond(data.timestamp))
  {
    ConverterRoundTrip(data.timestamp);
  }

  // ---------------------------------------------------------------------
  // Append-mode writers: a file is its sequence of lines

  /** `SaveToCsv`: appends exactly one line, the sample's CSV line. */
  function SaveToCsv(file: seq<string>, data: Sample, fmt: FloatFormatter): (after: seq<string>)
    ensures |after| == |file| + 1 && after[..|file|] == file
    ensures after[|file|] == ToCsv(data, fmt)
  {
    file + [ToCsv(data, fmt)]
  }

  /** `SaveToJson`: appends exactly one line, the sample's JSON text
      followed by a single trailing comma. `toJson` stands for the
      serializer's output, which is not modelled. */
  function SaveToJson(file: seq<string>, data: Sample, toJson: Sample -> string): (after: seq<string>)
    ensures |after| == |file| + 1 && after[..|file|] == file
    ensures |after[|file|]| == |toJson(data)| + 1
    ensures after[|file|][..|toJson(data)|] == toJson(data)
    ensures after[|file|][|toJson(data)|] == ','
  {
    file + [toJson(data) + ","]
  }
}
