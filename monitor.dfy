/** The telemetry sampler `scripts/system_monitor.py`. Every file it reads, every
    directory listing and the output of every vendor command is an input; on
    these, each operation of the sampler is a function or a method over them. */
module SystemMonitorScript {
  import opened Wrappers
  import opened PyText

  // ===========================================================================
  // CPU usage from /proc/stat

  /** The cumulative tick counters of one `cpu ` line. */
  datatype CpuSample = CpuSample(total: int, idle: int)

  /** `[int(x) for x in fields]`; `None` when some `int()` raises. */
  function ParseInts(fields: seq<string>): (r: Option<seq<int>>)
    ensures r.Some? ==> |r.value| == |fields|
  {
    if fields == [] then Some([])
    else
      match ParseInt(fields[0])
      case None => None
      case Some(v) =>
        match ParseInts(fields[1..])
        case None => None
        case Some(vs) => Some([v] + vs)
  }

  function Sum(values: seq<int>): int {
    if values == [] then 0 else values[0] + Sum(values[1..])
  }

  /** The slice `parts[1:]`. */
  function Tail(parts: seq<string>): seq<string> {
    if parts == [] then [] else parts[1..]
  }

  /** The counters `get_cpu` takes from the first line of /proc/stat: idle is
      field 4 plus field 5 (idle and iowait), total the sum of all fields.
      `None` when the line is not the aggregate `cpu ` line, a field is not an
      integer, or there are fewer than five fields. */
  function ParseCpuLine(line: string): (r: Option<CpuSample>)
    ensures r.Some? ==> StartsWith(line, "cpu ")
  {
    if !StartsWith(line, "cpu ") then None
    else CpuCounters(Tail(SplitWhitespace(line)))
  }

  /** The sample taken from the fields after the `cpu` label. */
  function CpuCounters(fields: seq<string>): (r: Option<CpuSample>)
    ensures r.Some? <==> ParseInts(fields).Some? && |fields| >= 5
  {
    match ParseInts(fields)
    case None => None
    case Some(values) => SampleOf(values)
  }

  /** Idle is the fourth plus the fifth counter, total the sum of all of them. */
  function SampleOf(values: seq<int>): (r: Option<CpuSample>)
    ensures r.Some? <==> |values| >= 5
  {
    if |values| < 5 then None
    else Some(CpuSample(Sum(values), values[3] + values[4]))
  }

  /** The sample `get_cpu` reads from the contents of /proc/stat (`None`: the
      file cannot be opened). */
  function StatSample(stat: Option<string>): Option<CpuSample> {
    match stat
    case None => None
    case Some(text) => ParseCpuLine(ReadLine(text))
  }

  /** The parsing half of `get_cpu`: read the first line, check that it is the
      aggregate `cpu ` line, convert every field after the label with `int()`
      and take idle plus iowait and the sum. */
  method ReadCpuSample(stat: Option<string>) returns (sample: Option<CpuSample>)
    ensures sample == StatSample(stat)
  {
    if stat.None? {
      return None;
    }
    var line := ReadLine(stat.value);
    sample := ParseCpuSample(line);
  }

  /** Split the aggregate line on whitespace, drop the label and add up the
      counters; idle time is the `idle` plus the `iowait` column. */
  method ParseCpuSample(line: string) returns (sample: Option<CpuSample>)
    ensures sample == ParseCpuLine(line)
  {
    if !StartsWith(line, "cpu ") {
      return None;
    }
    var parts := SplitWhitespace(line);
    var values := ParseInts(Tail(parts));
    if values.None? || |values.value| < 5 {
      return None;
    }
    var idle := values.value[3] + values.value[4];
    var total := Sum(values.value);
    return Some(CpuSample(total, idle));
  }

  /** `max(0.0, min(100.0, x))` */
  function Clamp(x: real): (r: real)
    ensures 0.0 <= r <= 100.0
    ensures 0.0 <= x <= 100.0 ==> r == x
    ensures x > 100.0 ==> r == 100.0
    ensures x < 0.0 ==> r == 0.0
  {
    if x > 100.0 then 100.0 else if x < 0.0 then 0.0 else x
  }

  /** The busy percentage between two samples: 0 when no ticks passed, else the
      share of non-idle ticks, clamped to [0, 100]. */
  function CpuUsage(prev: CpuSample, cur: CpuSample): (r: real)
    ensures 0.0 <= r <= 100.0
    ensures cur.total == prev.total ==> r == 0.0
  {
    var diffTotal := cur.total - prev.total;
    var diffIdle := cur.idle - prev.idle;
    if diffTotal == 0 then 0.0
    else Clamp((diffTotal - diffIdle) as real * 100.0 / diffTotal as real)
  }

  /** For counters that only grow, with idle growing no faster than the total,
      the clamp never acts: the result is the exact busy percentage. */
  lemma CpuUsageExact(prev: CpuSample, cur: CpuSample)
    requires cur.total > prev.total && prev.idle <= cur.idle
    requires cur.idle - prev.idle <= cur.total - prev.total
    ensures CpuUsage(prev, cur) ==
      ((cur.total - prev.total) - (cur.idle - prev.idle)) as real * 100.0 / (cur.total - prev.total) as real
  {
    var dt := (cur.total - prev.total) as real;
    var busy := ((cur.total - prev.total) - (cur.idle - prev.idle)) as real;
    var q := busy * 100.0 / dt;
    assert q * dt == busy * 100.0;
    assert 0.0 <= busy <= dt;
  }

  /** When both counters go back and idle goes back by less than the total,
      the clamp does not act either: the result is the busy share of the
      ticks lost, strictly between 0 and 100. */
  lemma CpuUsageBothBack(prev: CpuSample, cur: CpuSample)
    requires cur.total - prev.total < cur.idle - prev.idle < 0
    ensures CpuUsage(prev, cur) ==
      ((cur.total - prev.total) - (cur.idle - prev.idle)) as real * 100.0 / (cur.total - prev.total) as real
    ensures 0.0 < CpuUsage(prev, cur) < 100.0
  {
    var dt := (cur.total - prev.total) as real;
    var busy := ((cur.total - prev.total) - (cur.idle - prev.idle)) as real;
    var q := busy * 100.0 / dt;
    assert q * dt == busy * 100.0;
    assert dt < busy < 0.0;
    assert 0.0 < q < 100.0;
  }

  /** When the counters move inconsistently the clamp acts: idle ticks going
      back while the total grows, or the total going back while idle does not,
      read as 100; more idle than total ticks, in the direction the total moved,
      reads as 0. */
  lemma CpuUsageSaturates(prev: CpuSample, cur: CpuSample)
    ensures cur.total > prev.total && cur.idle < prev.idle ==> CpuUsage(prev, cur) == 100.0
    ensures cur.total > prev.total && cur.idle - prev.idle > cur.total - prev.total ==> CpuUsage(prev, cur) == 0.0
    ensures cur.total < prev.total && cur.idle >= prev.idle ==> CpuUsage(prev, cur) == 100.0
    ensures cur.total < prev.total && cur.idle - prev.idle <= cur.total - prev.total ==> CpuUsage(prev, cur) == 0.0
  {
    var dt := (cur.total - prev.total) as real;
    var busy := ((cur.total - prev.total) - (cur.idle - prev.idle)) as real;
    if dt != 0.0 {
      var q := busy * 100.0 / dt;
      assert q * dt == busy * 100.0;
      if dt > 0.0 && busy > dt {
        assert q > 100.0;
      }
      if dt > 0.0 && busy < 0.0 {
        assert q < 0.0;
      }
      if dt < 0.0 && busy <= dt {
        assert q >= 100.0;
      }
      if dt < 0.0 && busy >= 0.0 {
        assert q <= 0.0;
      }
    }
  }

  /** The fields of a `cpu ` line as the kernel prints them, each after a space. */
  function CpuFields(values: seq<nat>): string {
    if values == [] then [] else " " + ShowNat(values[0]) + CpuFields(values[1..])
  }

  /** The aggregate line of /proc/stat for the given counters. */
  function CpuStatLine(values: seq<nat>): string {
    "cpu " + CpuFields(values) + "\n"
  }

  function ShowAll(values: seq<nat>): (r: seq<string>)
    ensures |r| == |values|
    ensures forall i :: 0 <= i < |values| ==> r[i] == ShowNat(values[i])
  {
    if values == [] then [] else [ShowNat(values[0])] + ShowAll(values[1..])
  }

  /** One more field in front: a space, the decimal counter, then the rest. */
  lemma CpuFieldsCons(values: seq<nat>)
    requires values != []
    ensures CpuFields(values) + "\n" == " " + (ShowNat(values[0]) + (CpuFields(values[1..]) + "\n"))
  {
  }

  /** What follows a field is a space or the final newline. */
  lemma CpuFieldsStart(values: seq<nat>)
    ensures IsSpace((CpuFields(values) + "\n")[0])
  {
  }

  lemma {:induction false} SplitCpuFields(values: seq<nat>)
    ensures SplitWhitespace(CpuFields(values) + "\n") == ShowAll(values)
  {
    if values == [] {
      assert SplitWhitespace("\n") == [] by {
        assert LStrip("\n") == [];
      }
    } else {
      var rest := CpuFields(values[1..]) + "\n";
      SplitCpuFields(values[1..]);
      CpuFieldsCons(values);
      CpuFieldsStart(values[1..]);
      SplitSpacedToken(ShowNat(values[0]), rest);
    }
  }

  lemma {:induction false} ParseShowAll(values: seq<nat>)
    ensures ParseInts(ShowAll(values)) == Some(values)
  {
    if values != [] {
      var fields := ShowAll(values);
      ParseIntShowNat(values[0]);
      ParseShowAll(values[1..]);
      assert fields[1..] == ShowAll(values[1..]);
      ParseIntsCons(fields, values[0], values[1..]);
      assert [values[0]] + values[1..] == values;
    }
  }

  lemma ParseIntShowNat(n: nat)
    ensures ParseInt(ShowNat(n)) == Some(n)
  {
    ParseIntShowInt(n);
  }

  lemma ParseIntsCons(fields: seq<string>, v: int, vs: seq<int>)
    requires fields != [] && ParseInt(fields[0]) == Some(v) && ParseInts(fields[1..]) == Some(vs)
    ensures ParseInts(fields) == Some([v] + vs)
  {
  }

  lemma {:induction false} CpuFieldsNoNewline(values: seq<nat>)
    ensures '\n' !in CpuFields(values)
  {
    if values != [] {
      CpuFieldsNoNewline(values[1..]);
      assert forall i :: 0 <= i < |ShowNat(values[0])| ==> IsDigit(ShowNat(values[0])[i]);
    }
  }

  /** The first line of the text is the kernel's aggregate line. */
  lemma ReadKernelLine(values: seq<nat>, rest: string)
    ensures ReadLine(CpuStatLine(values) + rest) == CpuStatLine(values)
  {
    var line := CpuStatLine(values);
    CpuFieldsNoNewline(values);
    assert IndexOf(line + rest, '\n') == |line| - 1 by {
      assert (line + rest)[|line| - 1] == '\n';
      assert forall i :: 0 <= i < |line| - 1 ==> (line + rest)[i] == ("cpu " + CpuFields(values))[i];
    }
    assert (line + rest)[..|line|] == line;
  }

  /** Splitting the aggregate line gives the label and every counter in decimal. */
  lemma SplitKernelLine(values: seq<nat>)
    ensures SplitWhitespace(CpuStatLine(values)) == ["cpu"] + ShowAll(values)
  {
    var fields := CpuFields(values) + "\n";
    var tail := " " + fields;
    assert CpuStatLine(values) == "cpu" + tail;
    SplitWhitespaceToken("cpu", tail);
    SplitWhitespaceSkip(tail);
    assert tail[1..] == fields;
    SplitCpuFields(values);
  }

  lemma ParsedCpuLine(line: string, fields: seq<string>, values: seq<int>)
    requires StartsWith(line, "cpu ")
    requires SplitWhitespace(line) == ["cpu"] + fields
    requires ParseInts(fields) == Some(values)
    ensures ParseCpuLine(line) == SampleOf(values)
  {
    assert Tail(SplitWhitespace(line)) == fields;
  }

  /** Reading /proc/stat whose first line the kernel printed for `values` gives
      the sum of all counters as the total and idle plus iowait as the idle
      count, whatever follows the first line. */
  lemma StatSampleOfKernelLine(values: seq<nat>, rest: string)
    requires |values| >= 5
    ensures StatSample(Some(CpuStatLine(values) + rest)) ==
      Some(CpuSample(Sum(values), values[3] + values[4]))
  {
    var line := CpuStatLine(values);
    ReadKernelLine(values, rest);
    assert StartsWith(line, "cpu ");
    SplitKernelLine(values);
    ParseShowAll(values);
    ParsedCpuLine(line, ShowAll(values), values);
  }

  // ===========================================================================
  // CPU temperature from hwmon and thermal zones

  datatype FileRead = Missing | Unreadable | Text(text: string)

  /** An entry of a hwmon device directory; `content` is `None` when it cannot
      be read. */
  datatype SensorFile = SensorFile(name: string, content: Option<string>)

  /** A /sys/class/hwmon/<dev> directory: its `name` file and its listing
      (`None`: the listing fails). */
  datatype HwmonDevice = HwmonDevice(name: FileRead, files: Option<seq<SensorFile>>)

  /** A /sys/class/thermal/<zone> entry with its `type` and `temp` files
      (`None`: cannot be read). */
  datatype ThermalZone = ThermalZone(name: string, zoneType: Option<string>, temp: Option<string>)

  /** The two directories `get_cpu_temp` lists (`None`: missing or not listable). */
  datatype ThermalSources = ThermalSources(hwmon: Option<seq<HwmonDevice>>, thermal: Option<seq<ThermalZone>>)

  /** How a scan ends: a temperature, nothing, or an exception that ends
      `get_cpu_temp` with -1. */
  datatype Scan = Found(temp: int) | NotFound | Failed

  const CpuMonitorNames: seq<string> :=
    ["coretemp", "k10temp", "zenpower", "cpu_thermal", "x86_pkg_temp", "amd_energy"]
  const CpuZoneTypes: seq<string> := ["x86_pkg_temp", "cpu-thermal", "soc_thermal", "proc_thermal"]

  /** A millidegree reading accepted inside the open window (lo, 120000),
      converted to whole degrees with Python's `//`. */
  function Reading(content: Option<string>, lo: int): (r: Option<int>)
    requires lo >= 0
    ensures r.Some? <==>
      (content.Some? && ParseInt(Strip(content.value)).Some? && lo < ParseInt(Strip(content.value)).value < 120000)
    ensures r.Some? ==> r.value == ParseInt(Strip(content.value)).value / 1000
    ensures r.Some? ==> lo / 1000 <= r.value <= 119
  {
    match content
    case None => None
    case Some(c) =>
      match ParseInt(Strip(c))
      case None => None
      case Some(v) => if lo < v < 120000 then Some(v / 1000) else None
  }

  predicate IsTempInput(name: string) {
    EndsWith(name, "_input") && StartsWith(name, "temp")
  }

  /** The reading a file contributes: that of a `temp*_input` file when it is
      sane, nothing otherwise. */
  function SensorReading(f: SensorFile): (r: Option<int>)
    ensures r.Some? <==> IsTempInput(f.name) && Reading(f.content, 10000).Some?
    ensures r.Some? ==> r == Reading(f.content, 10000)
  {
    if IsTempInput(f.name) then Reading(f.content, 10000) else None
  }

  /** The first `temp*_input` of a CPU monitor whose reading is sane. */
  function SensorScan(files: seq<SensorFile>): (r: Option<int>)
    ensures r.Some? ==> 10 <= r.value <= 119
  {
    if files == [] then None
    else if SensorReading(files[0]).Some? then SensorReading(files[0])
    else SensorScan(files[1..])
  }

  /** The first entry of `xs` that `f` gives a reading for: the shape of a
      `for` loop that returns at the first sane reading. */
  function FirstReading<T>(xs: seq<T>, f: T -> Option<int>): Option<int> {
    if xs == [] then None
    else if f(xs[0]).Some? then f(xs[0])
    else FirstReading(xs[1..], f)
  }

  /** Such a loop returns a reading exactly when some entry has one, and then
      returns that of the first entry that has one. */
  lemma {:induction false} FirstReadingIsFirst<T>(xs: seq<T>, f: T -> Option<int>)
    ensures FirstReading(xs, f).Some? <==> exists i :: 0 <= i < |xs| && f(xs[i]).Some?
    ensures forall i :: 0 <= i < |xs| && f(xs[i]).Some? && (forall j :: 0 <= j < i ==> f(xs[j]).None?) ==>
      FirstReading(xs, f) == f(xs[i])
  {
    if xs != [] && f(xs[0]).None? {
      var tail := xs[1..];
      FirstReadingIsFirst(tail, f);
      if k :| 0 <= k < |tail| && f(tail[k]).Some? {
        assert xs[k + 1] == tail[k];
      }
      forall i | 0 <= i < |xs| && f(xs[i]).Some?
        ensures exists k :: 0 <= k < |tail| && f(tail[k]).Some?
      {
        assert tail[i - 1] == xs[i];
      }
      forall i | 0 <= i < |xs| && f(xs[i]).Some? && (forall j :: 0 <= j < i ==> f(xs[j]).None?)
        ensures FirstReading(xs, f) == f(xs[i])
      {
        assert tail[i - 1] == xs[i];
        forall j | 0 <= j < i - 1 ensures f(tail[j]).None? {
          assert tail[j] == xs[j + 1];
        }
      }
    }
  }

  lemma {:induction false} SensorScanIsFirstReading(files: seq<SensorFile>)
    ensures SensorScan(files) == FirstReading(files, SensorReading)
  {
    if files != [] {
      SensorScanIsFirstReading(files[1..]);
    }
  }

  /** A device yields a reading exactly when one of its files is a sane
      `temp*_input`, and the reading is that of the first such file. */
  lemma SensorScanFirst(files: seq<SensorFile>)
    ensures SensorScan(files).Some? <==> exists i :: 0 <= i < |files| && SensorReading(files[i]).Some?
    ensures forall i :: 0 <= i < |files| && SensorReading(files[i]).Some? &&
                        (forall j :: 0 <= j < i ==> SensorReading(files[j]).None?) ==>
      SensorScan(files) == SensorReading(files[i])
  {
    SensorScanIsFirstReading(files);
    FirstReadingIsFirst(files, SensorReading);
  }

  function DeviceScan(d: HwmonDevice): Scan {
    match d.name
    case Missing => NotFound
    case Unreadable => Failed
    case Text(t) =>
      if Strip(t) !in CpuMonitorNames then NotFound
      else
        match d.files
        case None => Failed
        case Some(fs) => if SensorScan(fs).Some? then Found(SensorScan(fs).value) else NotFound
  }

  /** The hwmon devices in listing order, until one yields a reading or fails. */
  function HwmonScan(devices: seq<HwmonDevice>): (r: Scan)
    ensures r.Found? ==> 10 <= r.temp <= 119
  {
    if devices == [] then NotFound
    else
      match DeviceScan(devices[0])
      case NotFound => HwmonScan(devices[1..])
      case other => other
  }

  /** The hwmon scan finds nothing exactly when every device is passed over, and
      otherwise ends with the outcome of the first device not passed over. */
  lemma {:induction false} HwmonScanFirst(devices: seq<HwmonDevice>)
    ensures HwmonScan(devices) == NotFound <==> forall i :: 0 <= i < |devices| ==> DeviceScan(devices[i]) == NotFound
    ensures forall i :: 0 <= i < |devices| && DeviceScan(devices[i]) != NotFound &&
                        (forall j :: 0 <= j < i ==> DeviceScan(devices[j]) == NotFound) ==>
      HwmonScan(devices) == DeviceScan(devices[i])
  {
    if devices != [] && DeviceScan(devices[0]) == NotFound {
      var tail := devices[1..];
      HwmonScanFirst(tail);
      forall k | 0 <= k < |tail| ensures DeviceScan(tail[k]) == DeviceScan(devices[k + 1]) {
        assert tail[k] == devices[k + 1];
      }
      forall i | 0 <= i < |devices| && DeviceScan(devices[i]) != NotFound &&
                 (forall j :: 0 <= j < i ==> DeviceScan(devices[j]) == NotFound)
        ensures HwmonScan(devices) == DeviceScan(devices[i])
      {
        assert tail[i - 1] == devices[i];
      }
    }
  }

  function ZoneReading(z: ThermalZone): Option<int> {
    if !StartsWith(z.name, "thermal_zone") then None
    else
      match z.zoneType
      case None => None
      case Some(t) => if Strip(t) in CpuZoneTypes then Reading(z.temp, 1000) else None
  }

  /** The first CPU thermal zone, in listing order, with a sane reading. */
  function ZoneScan(zones: seq<ThermalZone>): (r: Option<int>)
    ensures r.Some? ==> 1 <= r.value <= 119
  {
    if zones == [] then None
    else if ZoneReading(zones[0]).Some? then ZoneReading(zones[0])
    else ZoneScan(zones[1..])
  }

  lemma {:induction false} ZoneScanIsFirstReading(zones: seq<ThermalZone>)
    ensures ZoneScan(zones) == FirstReading(zones, ZoneReading)
  {
    if zones != [] {
      ZoneScanIsFirstReading(zones[1..]);
    }
  }

  /** The zone scan yields a reading exactly when some zone is a CPU zone with a
      sane reading, and the reading is that of the first such zone. */
  lemma ZoneScanFirst(zones: seq<ThermalZone>)
    ensures ZoneScan(zones).Some? <==> exists i :: 0 <= i < |zones| && ZoneReading(zones[i]).Some?
    ensures forall i :: 0 <= i < |zones| && ZoneReading(zones[i]).Some? &&
                        (forall j :: 0 <= j < i ==> ZoneReading(zones[j]).None?) ==>
      ZoneScan(zones) == ZoneReading(zones[i])
  {
    ZoneScanIsFirstReading(zones);
    FirstReadingIsFirst(zones, ZoneReading);
  }

  /** The value `get_cpu_temp` returns. The thermal zones are a fallback only
      when the hwmon directory exists and nothing in it matched. */
  function CpuTemp(src: ThermalSources): int {
    match src.hwmon
    case None => -1
    case Some(devices) =>
      match HwmonScan(devices)
      case Found(t) => t
      case Failed => -1
      case NotFound => if src.thermal.None? then -1 else ZoneScan(src.thermal.value).GetOr(-1)
  }

  /** The CPU temperature is -1 or a whole degree in 1..119, and in 10..119 when it
      came from hwmon. Without a hwmon directory it is -1, thermal zones or not. */
  lemma CpuTempRange(src: ThermalSources)
    ensures CpuTemp(src) == -1 || 1 <= CpuTemp(src) <= 119
    ensures src.hwmon.Some? && HwmonScan(src.hwmon.value).Found? ==> 10 <= CpuTemp(src) <= 119
    ensures src.hwmon.None? ==> CpuTemp(src) == -1
  {
  }

  /** `get_cpu_temp()`: the first sane hwmon reading of a CPU monitor, else the
      first sane CPU thermal zone, else -1. */
  method GetCpuTemp(src: ThermalSources) returns (t: int)
    ensures t == CpuTemp(src)
  {
    if src.hwmon.None? {
      return -1;
    }
    var scan := ScanHwmon(src.hwmon.value);
    if scan.Found? {
      return scan.temp;
    } else if scan.Failed? || src.thermal.None? {
      return -1;
    }
    var zone := ScanZones(src.thermal.value);
    return if zone.Some? then zone.value else -1;
  }

  /** The loop over the hwmon devices: skip a device without a `name` file or
      with another name, stop at the first reading; an unreadable `name` or an
      unlistable CPU monitor ends the scan with an exception. */
  method ScanHwmon(devices: seq<HwmonDevice>) returns (r: Scan)
    ensures r == HwmonScan(devices)
  {
    var i := 0;
    while i < |devices|
      invariant 0 <= i <= |devices|
      invariant HwmonScan(devices) == HwmonScan(devices[i..])
    {
      var d := devices[i];
      assert devices[i..][1..] == devices[i + 1..];
      if d.name.Unreadable? {
        return Failed;
      }
      if d.name.Text? && Strip(d.name.text) in CpuMonitorNames {
        if d.files.None? {
          return Failed;
        }
        var reading := ScanSensors(d.files.value);
        if reading.Some? {
          return Found(reading.value);
        }
      }
      i := i + 1;
    }
    return NotFound;
  }

  /** The loop over one CPU monitor's entries: the first `temp*_input` whose
      content is an integer strictly between 10000 and 120000. */
  method ScanSensors(files: seq<SensorFile>) returns (r: Option<int>)
    ensures r == SensorScan(files)
  {
    var j := 0;
    while j < |files|
      invariant 0 <= j <= |files|
      invariant SensorScan(files) == SensorScan(files[j..])
    {
      var f := files[j];
      assert files[j..][1..] == files[j + 1..];
      if IsTempInput(f.name) && f.content.Some? {
        var val := ParseInt(Strip(f.content.value));
        if val.Some? && 10000 < val.value < 120000 {
          return Some(val.value / 1000);
        }
      }
      j := j + 1;
    }
    return None;
  }

  /** The fallback loop over /sys/class/thermal: the first `thermal_zone*` of a
      CPU type whose `temp` is an integer strictly between 1000 and 120000. */
  method ScanZones(zones: seq<ThermalZone>) returns (r: Option<int>)
    ensures r == ZoneScan(zones)
  {
    var k := 0;
    while k < |zones|
      invariant 0 <= k <= |zones|
      invariant ZoneScan(zones) == ZoneScan(zones[k..])
    {
      var z := zones[k];
      assert zones[k..][1..] == zones[k + 1..];
      if StartsWith(z.name, "thermal_zone") && z.zoneType.Some? && Strip(z.zoneType.value) in CpuZoneTypes
         && z.temp.Some? {
        var val := ParseInt(Strip(z.temp.value));
        if val.Some? && 1000 < val.value < 120000 {
          return Some(val.value / 1000);
        }
      }
      k := k + 1;
    }
    return None;
  }

  // ===========================================================================
  // Memory from /proc/meminfo

  datatype MemInfo = MemInfo(usage: real, total: int, used: int, available: int)

  /** The totals seen so far while scanning /proc/meminfo. */
  datatype MemTotals = MemTotals(total: int, available: int)

  predicate BothKnown(a: MemTotals) {
    a.total > 0 && a.available > 0
  }

  /** `int(line.split()[1])`; `None` when it raises. */
  function SecondField(line: string): Option<int> {
    var parts := SplitWhitespace(line);
    if |parts| < 2 then None else ParseInt(parts[1])
  }

  /** One iteration of the scan; `None` when it raises. */
  function MemStep(acc: MemTotals, line: string): Option<MemTotals> {
    if StartsWith(line, "MemTotal:") then
      match SecondField(line)
      case None => None
      case Some(v) => Some(acc.(total := v))
    else if StartsWith(line, "MemAvailable:") then
      match SecondField(line)
      case None => None
      case Some(v) => Some(acc.(available := v))
    else Some(acc)
  }

  /** The scan of the remaining `lines` from `acc`: each `MemTotal:` or
      `MemAvailable:` line overwrites its total, and the scan stops as soon as both
      are positive. */
  function ScanMeminfo(lines: seq<string>, acc: MemTotals): Option<MemTotals> {
    if lines == [] then Some(acc)
    else
      match MemStep(acc, lines[0])
      case None => None
      case Some(a) => if BothKnown(a) then Some(a) else ScanMeminfo(lines[1..], a)
  }

  /** The tuple `get_mem` returns for the scan's outcome. */
  function MemReport(scan: Option<MemTotals>): (r: MemInfo)
    ensures scan.None? || scan.value.total == 0 ==> r == MemInfo(0.0, 0, 0, 0)
    ensures scan.Some? && scan.value.total != 0 ==>
      r.total == scan.value.total && r.available == scan.value.available
    ensures r.total == 0 ==> r == MemInfo(0.0, 0, 0, 0)
    ensures r.total != 0 ==> r.used == r.total - r.available
    ensures r.total != 0 ==> r.usage * r.total as real == r.used as real * 100.0
    ensures 0 <= r.available <= r.total ==> 0.0 <= r.usage <= 100.0
  {
    match scan
    case None => MemInfo(0.0, 0, 0, 0)
    case Some(a) =>
      if a.total == 0 then MemInfo(0.0, 0, 0, 0)
      else
        var used := a.total - a.available;
        var usage := used as real * 100.0 / a.total as real;
        assert 0 <= a.available <= a.total ==> 0.0 <= usage <= 100.0 by {
          if 0 <= a.available <= a.total {
            assert 0.0 <= used as real * 100.0 <= a.total as real * 100.0;
            assert used as real * 100.0 / a.total as real <= a.total as real * 100.0 / a.total as real;
          }
        }
        MemInfo(usage, a.total, used, a.available)
  }

  const NoTotals := MemTotals(0, 0)

  /** The value of `get_mem()` for the contents of /proc/meminfo (`None`: the
      file cannot be opened). */
  function Meminfo(content: Option<string>): MemInfo {
    match content
    case None => MemInfo(0.0, 0, 0, 0)
    case Some(text) => MemReport(ScanMeminfo(Lines(text), NoTotals))
  }

  /** A /proc/meminfo line as the kernel prints it: `<key> <value> kB`. */
  function MeminfoLine(key: string, value: nat): string {
    key + " " + ShowNat(value) + " kB\n"
  }

  /** Such a line is read whole by the line iterator, starts with its key and
      has `value` as its second field. */
  lemma MeminfoLineRead(key: string, value: nat)
    requires key != [] && NoSpace(key)
    ensures IsLine(MeminfoLine(key, value))
    ensures StartsWith(MeminfoLine(key, value), key)
    ensures SecondField(MeminfoLine(key, value)) == Some(value)
  {
    MeminfoLineIsLine(key, value);
    MeminfoLineFields(key, value);
    ParseIntShowInt(value);
  }

  lemma MeminfoLineIsLine(key: string, value: nat)
    requires NoSpace(key)
    ensures IsLine(MeminfoLine(key, value)) && StartsWith(MeminfoLine(key, value), key)
  {
    var digits := ShowNat(value);
    var line := MeminfoLine(key, value);
    assert line == key + " " + digits + " kB" + "\n";
    forall i | 0 <= i < |line| - 1
      ensures line[i] != '\n'
    {
      if i < |key| {
        assert line[i] == key[i];
      } else if |key| < i < |key| + 1 + |digits| {
        assert line[i] == digits[i - |key| - 1];
      }
    }
    assert line[..|key|] == key;
  }

  lemma MeminfoLineFields(key: string, value: nat)
    requires key != [] && NoSpace(key)
    ensures var parts := SplitWhitespace(MeminfoLine(key, value)); |parts| >= 2 && parts[1] == ShowNat(value)
  {
    var digits := ShowNat(value);
    DigitsHaveNoSpace(digits);
    KbLineGrouped(key, digits);
    SecondToken(key, digits, " kB\n");
  }

  lemma DigitsHaveNoSpace(digits: string)
    requires forall i :: 0 <= i < |digits| ==> IsDigit(digits[i])
    ensures NoSpace(digits)
  {
  }

  lemma KbLineGrouped(key: string, digits: string)
    ensures key + " " + digits + " kB\n" == key + (" " + (digits + " kB\n"))
  {
  }

  /** A kernel-printed `MemTotal:` line sets the total, a `MemFree:` line
      changes nothing and a `MemAvailable:` line sets the available count. */
  lemma KernelTotalStep(acc: MemTotals, total: nat)
    ensures IsLine(MeminfoLine("MemTotal:", total))
    ensures MemStep(acc, MeminfoLine("MemTotal:", total)) == Some(acc.(total := total))
  {
    MeminfoLineRead("MemTotal:", total);
  }

  lemma KernelFreeStep(acc: MemTotals, free: nat)
    ensures MemStep(acc, MeminfoLine("MemFree:", free)) == Some(acc)
  {
    var l := MeminfoLine("MemFree:", free);
    assert l[3] == 'F';
    NotPrefixAt(l, "MemTotal:", 3);
    NotPrefixAt(l, "MemAvailable:", 3);
  }

  lemma KernelFreeLine(free: nat)
    ensures IsLine(MeminfoLine("MemFree:", free))
  {
    MeminfoLineRead("MemFree:", free);
  }

  lemma KernelAvailableStep(acc: MemTotals, available: nat)
    ensures IsLine(MeminfoLine("MemAvailable:", available))
    ensures MemStep(acc, MeminfoLine("MemAvailable:", available)) == Some(acc.(available := available))
  {
    var l := MeminfoLine("MemAvailable:", available);
    MeminfoLineRead("MemAvailable:", available);
    assert l[3] == 'A';
    NotPrefixAt(l, "MemTotal:", 3);
  }

  /** One step of the scan that does not stop it. */
  lemma ScanContinues(lines: seq<string>, acc: MemTotals, a: MemTotals)
    requires lines != [] && MemStep(acc, lines[0]) == Some(a) && !BothKnown(a)
    ensures ScanMeminfo(lines, acc) == ScanMeminfo(lines[1..], a)
  {
  }

  /** The scan stops at the third line with both values. */
  lemma KernelMemScan(lines: seq<string>, total: nat, available: nat)
    requires |lines| >= 3 && total > 0 && available > 0
    requires MemStep(NoTotals, lines[0]) == Some(MemTotals(total, 0))
    requires MemStep(MemTotals(total, 0), lines[1]) == Some(MemTotals(total, 0))
    requires MemStep(MemTotals(total, 0), lines[2]) == Some(MemTotals(total, available))
    ensures ScanMeminfo(lines, NoTotals) == Some(MemTotals(total, available))
  {
    ScanContinues(lines, NoTotals, MemTotals(total, 0));
    var s1 := lines[1..];
    assert s1[0] == lines[1];
    ScanContinues(s1, MemTotals(total, 0), MemTotals(total, 0));
    var s2 := s1[1..];
    assert s2[0] == lines[2];
    ScanStops(s2, MemTotals(total, 0), MemTotals(total, available));
  }

  /** The step that makes both totals positive ends the scan. */
  lemma ScanStops(lines: seq<string>, acc: MemTotals, a: MemTotals)
    requires lines != [] && MemStep(acc, lines[0]) == Some(a) && BothKnown(a)
    ensures ScanMeminfo(lines, acc) == Some(a)
  {
  }

  /** For /proc/meminfo as the kernel starts it (`MemTotal`, `MemFree`,
      `MemAvailable`, then anything), `get_mem` reports that total and that
      available count, and their difference as used. */
  lemma MeminfoOfKernelText(total: nat, free: nat, available: nat, rest: string)
    requires total > 0 && available > 0
    ensures var info := Meminfo(Some(MeminfoLine("MemTotal:", total) + (MeminfoLine("MemFree:", free)
                                     + (MeminfoLine("MemAvailable:", available) + rest))));
      && info.total == total && info.available == available && info.used == total - available
  {
    var l1, l2, l3 := MeminfoLine("MemTotal:", total), MeminfoLine("MemFree:", free),
                      MeminfoLine("MemAvailable:", available);
    KernelTotalStep(NoTotals, total);
    KernelFreeStep(MemTotals(total, 0), free);
    KernelFreeLine(free);
    KernelAvailableStep(MemTotals(total, 0), available);
    KernelMemText(l1, l2, l3, rest, total, available);
    var text := l1 + (l2 + (l3 + rest));
    assert Meminfo(Some(text)) == MemReport(Some(MemTotals(total, available)));
  }

  /** The scan of three such lines, then anything. */
  lemma KernelMemText(l1: string, l2: string, l3: string, rest: string, total: nat, available: nat)
    requires IsLine(l1) && IsLine(l2) && IsLine(l3) && total > 0 && available > 0
    requires MemStep(NoTotals, l1) == Some(MemTotals(total, 0))
    requires MemStep(MemTotals(total, 0), l2) == Some(MemTotals(total, 0))
    requires MemStep(MemTotals(total, 0), l3) == Some(MemTotals(total, available))
    ensures ScanMeminfo(Lines(l1 + (l2 + (l3 + rest))), NoTotals) == Some(MemTotals(total, available))
  {
    FirstThreeLines(l1, l2, l3, rest);
    KernelMemScan(Lines(l1 + (l2 + (l3 + rest))), total, available);
  }

  /** Once both totals are positive the scan has stopped: whatever lines follow,
      even malformed ones, change nothing. */
  lemma {:induction false} ScanStopsEarly(pre: seq<string>, post: seq<string>, acc: MemTotals)
    requires !BothKnown(acc)
    requires ScanMeminfo(pre, acc).Some? && BothKnown(ScanMeminfo(pre, acc).value)
    ensures ScanMeminfo(pre + post, acc) == ScanMeminfo(pre, acc)
  {
    assert pre != [];
    var step := MemStep(acc, pre[0]);
    ScanUnfold(pre, acc);
    ScanUnfold(pre + post, acc);
    assert (pre + post)[0] == pre[0] && (pre + post)[1..] == pre[1..] + post;
    if step.Some? && !BothKnown(step.value) {
      ScanStopsEarly(pre[1..], post, step.value);
    }
  }

  /** The scan after its first step's outcome `step` on the remaining `lines`. */
  function ScanRest(step: Option<MemTotals>, lines: seq<string>): Option<MemTotals> {
    match step
    case None => None
    case Some(a) => if BothKnown(a) then Some(a) else ScanMeminfo(lines, a)
  }

  lemma ScanUnfold(lines: seq<string>, acc: MemTotals)
    requires lines != []
    ensures ScanMeminfo(lines, acc) == ScanRest(MemStep(acc, lines[0]), lines[1..])
  {
  }

  /** Lines that are neither `MemTotal:` nor `MemAvailable:` lines are skipped. */
  lemma {:induction false} ScanSkipsOtherLines(other: seq<string>, rest: seq<string>, acc: MemTotals)
    requires !BothKnown(acc)
    requires forall i :: 0 <= i < |other| ==>
      !StartsWith(other[i], "MemTotal:") && !StartsWith(other[i], "MemAvailable:")
    ensures ScanMeminfo(other + rest, acc) == ScanMeminfo(rest, acc)
  {
    if other != [] {
      assert (other + rest)[0] == other[0];
      assert (other + rest)[1..] == other[1..] + rest;
      assert MemStep(acc, other[0]) == Some(acc);
      ScanSkipsOtherLines(other[1..], rest, acc);
    } else {
      assert other + rest == rest;
    }
  }

  /** `get_mem()`: scans /proc/meminfo line by line, stopping early. */
  method GetMem(content: Option<string>) returns (info: MemInfo)
    ensures info == Meminfo(content)
  {
    if content.None? {
      return MemInfo(0.0, 0, 0, 0);
    }
    var lines := Lines(content.value);
    var memTotal, memAvailable := 0, 0;
    var i := 0;
    while i < |lines|
      invariant 0 <= i <= |lines|
      invariant !BothKnown(MemTotals(memTotal, memAvailable))
      invariant ScanMeminfo(lines, NoTotals) == ScanMeminfo(lines[i..], MemTotals(memTotal, memAvailable))
    {
      assert lines[i..][1..] == lines[i + 1..];
      var step := MemLine(MemTotals(memTotal, memAvailable), lines[i]);
      if step.None? {
        return MemInfo(0.0, 0, 0, 0);
      }
      memTotal, memAvailable := step.value.total, step.value.available;
      if memTotal > 0 && memAvailable > 0 {
        break;
      }
      i := i + 1;
    }
    assert ScanMeminfo(lines, NoTotals) == Some(MemTotals(memTotal, memAvailable));
    info := MemReport(Some(MemTotals(memTotal, memAvailable)));
  }

  /** The body of the scan loop for one line (`None`: `int()` or the index
      raises). */
  method MemLine(acc: MemTotals, line: string) returns (r: Option<MemTotals>)
    ensures r == MemStep(acc, line)
    ensures r.None? <==>
      ((StartsWith(line, "MemTotal:") || StartsWith(line, "MemAvailable:")) && SecondField(line).None?)
    ensures r.Some? && !StartsWith(line, "MemTotal:") ==> r.value.total == acc.total
    ensures r.Some? && !StartsWith(line, "MemTotal:") && !StartsWith(line, "MemAvailable:") ==> r.value == acc
  {
    var memTotal, memAvailable := acc.total, acc.available;
    if StartsWith(line, "MemTotal:") {
      var parts := SplitWhitespace(line);
      if |parts| < 2 || ParseInt(parts[1]).None? {
        return None;
      }
      memTotal := ParseInt(parts[1]).value;
    } else if StartsWith(line, "MemAvailable:") {
      var parts := SplitWhitespace(line);
      if |parts| < 2 || ParseInt(parts[1]).None? {
        return None;
      }
      memAvailable := ParseInt(parts[1]).value;
    }
    return Some(MemTotals(memTotal, memAvailable));
  }

  // ===========================================================================
  // Disk usage from statvfs

  /** The `statvfs` fields the sampler uses; they are unsigned in C. */
  datatype StatVfs = StatVfs(blocks: nat, frsize: nat, bavail: nat)

  /** The percentage `get_disk_usage` reports for one mount (`None`: `statvfs`
      raised). */
  function DiskPercent(st: Option<StatVfs>): real {
    match st
    case None => 0.0
    case Some(s) =>
      var total := s.blocks * s.frsize;
      var free := s.bavail * s.frsize;
      if total > 0 then ((total - free) as real / total as real) * 100.0 else 0.0
  }

  /** The block size cancels: the percentage is the share of blocks not available
      to unprivileged users, and it lies in [0, 100] when no more blocks are
      available than exist. */
  lemma DiskPercentOfBlocks(s: StatVfs)
    requires s.blocks * s.frsize > 0
    ensures DiskPercent(Some(s)) == ((s.blocks - s.bavail) as real / s.blocks as real) * 100.0
    ensures s.bavail <= s.blocks ==> 0.0 <= DiskPercent(Some(s)) <= 100.0
  {
    var b, f, a := s.blocks as real, s.frsize as real, s.bavail as real;
    assert (s.blocks * s.frsize - s.bavail * s.frsize) as real == (b - a) * f;
    assert (s.blocks * s.frsize) as real == b * f;
    CancelFactor(b - a, b, f);
    if s.bavail <= s.blocks {
      UnitFraction(b - a, b);
    }
  }

  lemma CancelFactor(x: real, y: real, f: real)
    requires y > 0.0 && f > 0.0
    ensures (x * f) / (y * f) == x / y
  {
    var q := x / y;
    assert q * y == x;
    assert q * (y * f) == x * f;
  }

  lemma UnitFraction(x: real, y: real)
    requires 0.0 <= x <= y && y > 0.0
    ensures 0.0 <= x / y <= 1.0
  {
    var q := x / y;
    assert q * y == x;
  }

  /** The stat result for a mount: `None` when `statvfs` raises. */
  function StatOf(stats: map<string, StatVfs>, mount: string): Option<StatVfs> {
    if mount in stats then Some(stats[mount]) else None
  }

  /** `get_disk_usage(disks)`: one entry per requested mount. */
  method GetDiskUsage(disks: seq<string>, stats: map<string, StatVfs>) returns (usage: map<string, real>)
    ensures usage.Keys == set m | m in disks
    ensures forall m :: m in usage ==> usage[m] == DiskPercent(StatOf(stats, m))
  {
    usage := map[];
    for i := 0 to |disks|
      invariant usage.Keys == set m | m in disks[..i]
      invariant forall m :: m in usage ==> usage[m] == DiskPercent(StatOf(stats, m))
    {
      var mount := disks[i];
      assert disks[..i + 1] == disks[..i] + [mount];
      if mount in stats {
        var st := stats[mount];
        var total := st.blocks * st.frsize;
        var free := st.bavail * st.frsize;
        var used := total - free;
        if total > 0 {
          usage := usage[mount := (used as real / total as real) * 100.0];
        } else {
          usage := usage[mount := 0.0];
        }
      } else {
        usage := usage[mount := 0.0];
      }
    }
    assert disks[..|disks|] == disks;
  }

  // ===========================================================================
  // GPU detection

  datatype GpuVendor = NoGpu | Nvidia | Amd | Intel {
    /** The `gpu_vendor` string. */
    function Name(): string {
      match this
      case NoGpu => "none"
      case Nvidia => "nvidia"
      case Amd => "amd"
      case Intel => "intel"
    }
  }

  /** Whether `nvidia-smi` can be run, and the output of the count query
      (`None`: the query fails). */
  datatype NvidiaProbe = NvidiaMissing | NvidiaPresent(countOutput: Option<string>)

  /** An entry of /sys/class/drm and whether `device/gpu_busy_percent` exists
      under it. */
  datatype DrmEntry = DrmEntry(name: string, hasBusyPercent: bool)

  /** What `detect_gpu` finds: `drm` is `None` when /sys/class/drm is missing. */
  datatype GpuProbe = GpuProbe(nvidia: NvidiaProbe, drm: Option<seq<DrmEntry>>, intelInstalled: bool)

  datatype GpuState = GpuState(vendor: GpuVendor, count: int, amdCards: seq<string>)

  predicate IsAmdCard(e: DrmEntry) {
    StartsWith(e.name, "card") && e.hasBusyPercent
  }

  /** The names of the AMD cards among `entries`, in listing order. */
  function AmdKept(entries: seq<DrmEntry>): (cards: seq<string>)
    ensures |cards| <= |entries|
  {
    if entries == [] then []
    else
      var last := entries[|entries| - 1];
      AmdKept(entries[..|entries| - 1]) + (if IsAmdCard(last) then [last.name] else [])
  }

  /** Exactly the entries named `card*` with a busy-percent file are kept. */
  lemma {:induction false} AmdKeptExactly(entries: seq<DrmEntry>, name: string)
    ensures name in AmdKept(entries) <==> exists e :: e in entries && e.name == name && IsAmdCard(e)
  {
    if entries != [] {
      var init := entries[..|entries| - 1];
      var last := entries[|entries| - 1];
      AmdKeptExactly(init, name);
      assert entries == init + [last];
      if exists e :: e in entries && e.name == name && IsAmdCard(e) {
        var e :| e in entries && e.name == name && IsAmdCard(e);
        if e != last {
          assert e in init;
        }
      }
    }
  }

  /** The loop of `detect_gpu` that collects the AMD cards. */
  method CollectAmdCards(entries: seq<DrmEntry>) returns (cards: seq<string>)
    ensures cards == AmdKept(entries)
  {
    cards := [];
    for i := 0 to |entries|
      invariant cards == AmdKept(entries[..i])
    {
      var card := entries[i];
      assert entries[..i + 1][..i] == entries[..i];
      if StartsWith(card.name, "card") && card.hasBusyPercent {
        cards := cards + [card.name];
      }
    }
    assert entries[..|entries|] == entries;
  }

  function AmdCandidates(drm: Option<seq<DrmEntry>>): seq<string> {
    match drm
    case None => []
    case Some(entries) => AmdKept(entries)
  }

  /** The count query's result: `int(out.strip())`, 0 when it fails. */
  function NvidiaCount(out: Option<string>): int {
    match out
    case None => 0
    case Some(o) => ParseInt(Strip(o)).GetOr(0)
  }

  /** The GPU fields after `detect_gpu`: NVIDIA when `nvidia-smi` exists, else
      AMD when a card was found, else Intel when `intel_gpu_top` exists, else
      unchanged. */
  function Detect(probe: GpuProbe, s: GpuState): GpuState {
    match probe.nvidia
    case NvidiaPresent(out) => s.(vendor := Nvidia, count := NvidiaCount(out))
    case NvidiaMissing =>
      var cards := AmdCandidates(probe.drm);
      if cards != [] then GpuState(Amd, |cards|, SortStrings(cards))
      else if probe.intelInstalled then s.(vendor := Intel, count := 1)
      else s
  }

  /** When AMD is detected the count is the number of cards found and
      `amd_cards` holds each of them once, in sorted order. */
  lemma AmdDetection(probe: GpuProbe, s: GpuState)
    requires probe.nvidia.NvidiaMissing? && AmdCandidates(probe.drm) != []
    ensures var r := Detect(probe, s);
      && r.vendor == Amd && r.count == |AmdCandidates(probe.drm)| && r.count > 0
      && SortedStrings(r.amdCards) && multiset(r.amdCards) == multiset(AmdCandidates(probe.drm))
  {
    SortStringsSorted(AmdCandidates(probe.drm));
  }

  // ===========================================================================
  // GPU statistics

  datatype GpuStats = GpuStats(usages: seq<real>, temps: seq<int>)

  /** The usage and temperature one `nvidia-smi` CSV line contributes: `None` for
      a line with fewer than two fields, `(0.0, -1)` when a field does not
      parse. */
  function NvidiaRow(line: string): (r: Option<(real, int)>)
    ensures r.None? <==> ',' !in line
  {
    var parts := SplitOn(line, ',');
    if |parts| < 2 then None
    else
      var usage, temp := ParseFloat(Strip(parts[0])), ParseInt(Strip(parts[1]));
      if usage.Some? && temp.Some? then Some((usage.value, temp.value)) else Some((0.0, -1))
  }

  /** The statistics of the CSV lines, in order. */
  function NvidiaRows(lines: seq<string>): GpuStats {
    if lines == [] then GpuStats([], [])
    else
      var prev := NvidiaRows(lines[..|lines| - 1]);
      match NvidiaRow(lines[|lines| - 1])
      case None => prev
      case Some((u, t)) => GpuStats(prev.usages + [u], prev.temps + [t])
  }

  function CountWithComma(lines: seq<string>): nat {
    if lines == [] then 0
    else CountWithComma(lines[..|lines| - 1]) + (if ',' in lines[|lines| - 1] then 1 else 0)
  }

  /** One usage and one temperature per line that has two fields, none for the
      others: the two lists stay aligned GPU by GPU. */
  lemma {:induction false} NvidiaRowsAligned(lines: seq<string>)
    ensures |NvidiaRows(lines).usages| == |NvidiaRows(lines).temps| == CountWithComma(lines)
  {
    if lines != [] {
      NvidiaRowsAligned(lines[..|lines| - 1]);
    }
  }

  /** The per-line code as written: `usages.append(float(...))` runs before
      `int(...)` is tried, so a line whose usage parses and whose temperature
      does not appends two usages and one temperature. */
  function NvidiaRowAsWritten(line: string): GpuStats {
    var parts := SplitOn(line, ',');
    if |parts| < 2 then GpuStats([], [])
    else
      match ParseFloat(Strip(parts[0]))
      case None => GpuStats([0.0], [-1])
      case Some(u) =>
        match ParseInt(Strip(parts[1]))
        case Some(t) => GpuStats([u], [t])
        case None => GpuStats([u, 0.0], [-1])
  }

  function NvidiaRowsAsWritten(lines: seq<string>): GpuStats {
    if lines == [] then GpuStats([], [])
    else
      var prev := NvidiaRowsAsWritten(lines[..|lines| - 1]);
      var row := NvidiaRowAsWritten(lines[|lines| - 1]);
      GpuStats(prev.usages + row.usages, prev.temps + row.temps)
  }

  /** A line whose usage parses and whose temperature does not gets two usages
      and one temperature from the code as written. */
  lemma NvidiaAsWrittenMisaligned(line: string)
    requires |SplitOn(line, ',')| >= 2
    requires ParseFloat(Strip(SplitOn(line, ',')[0])).Some?
    requires ParseInt(Strip(SplitOn(line, ',')[1])).None?
    ensures |NvidiaRowsAsWritten([line]).usages| == 2
    ensures |NvidiaRowsAsWritten([line]).temps| == 1
  {
    assert [line][..0] == [];
  }

  /** Such a line: `45, [N/A]`, a GPU that reports its load but no temperature. */
  lemma LoadOnlyLine()
    ensures |SplitOn("45, [N/A]", ',')| >= 2
    ensures ParseFloat(Strip(SplitOn("45, [N/A]", ',')[0])) == Some(45.0)
    ensures ParseInt(Strip(SplitOn("45, [N/A]", ',')[1])).None?
  {
    assert "45, [N/A]" == "45" + [','] + " [N/A]";
    SplitOnPair("45", " [N/A]", ',');
    LoadField();
    NoTemperatureField();
  }

  lemma LoadField()
    ensures ParseFloat(Strip("45")) == Some(45.0)
  {
    assert Strip("45") == "45";
    assert IndexOf("45", '.') == 2;
    assert DigitGroup("45");
    assert DigitsValue("45") == 45 by {
      assert "45"[..1] == "4";
      assert DigitsValue("4") == 4 by { assert "4"[..0] == ""; }
    }
  }

  lemma NoTemperatureField()
    ensures ParseInt(Strip(" [N/A]")).None?
  {
    assert Strip(" [N/A]") == "[N/A]" by {
      assert LStrip(" [N/A]") == "[N/A]" by { assert " [N/A]"[1..] == "[N/A]"; }
    }
    assert !DigitGroup("[N/A]");
  }

  /** On every line whose temperature parses, or whose usage does not, the code as
      written and the corrected per-line rule append the same values. */
  lemma NvidiaAsWrittenAgreesOtherwise(line: string)
    requires var parts := SplitOn(line, ',');
      |parts| >= 2 ==> ParseInt(Strip(parts[1])).Some? || ParseFloat(Strip(parts[0])).None?
    ensures NvidiaRowAsWritten(line) ==
      match NvidiaRow(line) case None => GpuStats([], []) case Some((u, t)) => GpuStats([u], [t])
  {
  }

  /** A line whose usage parses and whose temperature does not. */
  predicate LoadOnly(line: string) {
    var parts := SplitOn(line, ',');
    |parts| >= 2 && ParseFloat(Strip(parts[0])).Some? && ParseInt(Strip(parts[1])).None?
  }

  function LoadOnlyCount(lines: seq<string>): nat {
    if lines == [] then 0
    else LoadOnlyCount(lines[..|lines| - 1]) + (if LoadOnly(lines[|lines| - 1]) then 1 else 0)
  }

  /** As written, every line with two fields adds one temperature, and each
      load-only line adds one usage too many. */
  lemma {:induction false} NvidiaRowsAsWrittenShape(lines: seq<string>)
    ensures |NvidiaRowsAsWritten(lines).temps| == CountWithComma(lines)
    ensures |NvidiaRowsAsWritten(lines).usages| == |NvidiaRowsAsWritten(lines).temps| + LoadOnlyCount(lines)
  {
    if lines != [] {
      NvidiaRowsAsWrittenShape(lines[..|lines| - 1]);
      NvidiaRowAsWrittenShape(lines[|lines| - 1]);
    }
  }

  lemma NvidiaRowAsWrittenShape(line: string)
    ensures |NvidiaRowAsWritten(line).temps| == if ',' in line then 1 else 0
    ensures |NvidiaRowAsWritten(line).usages| ==
      |NvidiaRowAsWritten(line).temps| + if LoadOnly(line) then 1 else 0
  {
  }

  /** Without load-only lines the code as written gives the one-pair-per-line
      statistics. */
  lemma {:induction false} NvidiaAsWrittenWithoutLoadOnly(lines: seq<string>)
    requires LoadOnlyCount(lines) == 0
    ensures NvidiaRowsAsWritten(lines) == NvidiaRows(lines)
  {
    if lines != [] {
      NvidiaAsWrittenWithoutLoadOnly(lines[..|lines| - 1]);
      NvidiaAsWrittenAgreesOtherwise(lines[|lines| - 1]);
    }
  }

  /** The lines of `nvidia-smi`'s output: `out.strip().split("\n")`. */
  function CsvLines(out: string): seq<string> {
    SplitOn(Strip(out), '\n')
  }

  /** `[0.0] * n` and `[-1] * n`: the statistics when the query fails. */
  function Unknown(n: nat): GpuStats {
    GpuStats(seq(n, _ => 0.0), seq(n, _ => -1))
  }

  /** The NVIDIA branch: the parsed CSV, or `gpu_count` unknown entries when the
      query fails. */
  function NvidiaStats(count: nat, out: Option<string>): GpuStats {
    match out
    case None => Unknown(count)
    case Some(o) => NvidiaRowsAsWritten(CsvLines(o))
  }

  /** The AMD card's hwmon directory entry and its `temp1_input` (`None`: missing
      or unreadable). */
  datatype HwmonDir = HwmonDir(name: string, temp1Input: Option<string>)

  /** The files under /sys/class/drm/<card>/device: `gpu_busy_percent` (`None`:
      cannot be read) and the listing of `hwmon` (`None`: missing). */
  datatype AmdCardFiles = AmdCardFiles(busyPercent: Option<string>, hwmon: Option<seq<HwmonDir>>)

  function CardFiles(files: map<string, AmdCardFiles>, card: string): AmdCardFiles {
    if card in files then files[card] else AmdCardFiles(None, None)
  }

  function AmdUsage(f: AmdCardFiles): real {
    match f.busyPercent
    case None => 0.0
    case Some(text) => ParseFloat(Strip(text)).GetOr(0.0)
  }

  /** The first hwmon directory's `temp1_input` in degrees (Python's `//`, which
      for a positive divisor is Dafny's `/`), -1 when absent. */
  function AmdTemp(f: AmdCardFiles): int {
    match f.hwmon
    case None => -1
    case Some(dirs) =>
      if dirs == [] then -1
      else
        match dirs[0].temp1Input
        case None => -1
        case Some(text) => if ParseInt(Strip(text)).Some? then ParseInt(Strip(text)).value / 1000 else -1
  }

  /** One usage and one temperature per card, in `amd_cards` order. */
  function AmdStats(cards: seq<string>, files: map<string, AmdCardFiles>): (r: GpuStats)
    ensures |r.usages| == |r.temps| == |cards|
  {
    if cards == [] then GpuStats([], [])
    else
      var prev := AmdStats(cards[..|cards| - 1], files);
      var f := CardFiles(files, cards[|cards| - 1]);
      GpuStats(prev.usages + [AmdUsage(f)], prev.temps + [AmdTemp(f)])
  }

  /** The i-th entries belong to the i-th card of `amd_cards`. */
  lemma {:induction false} AmdStatsAt(cards: seq<string>, files: map<string, AmdCardFiles>, i: nat)
    requires i < |cards|
    ensures AmdStats(cards, files).usages[i] == AmdUsage(CardFiles(files, cards[i]))
    ensures AmdStats(cards, files).temps[i] == AmdTemp(CardFiles(files, cards[i]))
  {
    if i < |cards| - 1 {
      AmdStatsAt(cards[..|cards| - 1], files, i);
    }
  }

  /** The value of `get_gpu_stats()` for the detected GPU fields. */
  function GpuStatsOf(s: GpuState, query: Option<string>, files: map<string, AmdCardFiles>): GpuStats {
    if s.vendor == Nvidia && s.count > 0 then NvidiaStats(s.count, query)
    else if s.vendor == Amd && s.count > 0 then AmdStats(s.amdCards, files)
    else if s.vendor == Intel then GpuStats([0.0], [-1])
    else GpuStats([], [])
  }

  /** There are as many temperatures as usages, except that each load-only
      NVIDIA line adds one usage more; a failed NVIDIA query gives `gpu_count`
      unknown entries, AMD one entry per card and Intel always one. */
  lemma GpuStatsShape(s: GpuState, query: Option<string>, files: map<string, AmdCardFiles>)
    ensures |GpuStatsOf(s, query, files).usages| == |GpuStatsOf(s, query, files).temps| +
      (if s.vendor == Nvidia && s.count > 0 && query.Some? then LoadOnlyCount(CsvLines(query.value)) else 0)
    ensures s.vendor == Nvidia && s.count > 0 && query.None? ==> GpuStatsOf(s, query, files) == Unknown(s.count)
    ensures s.vendor == Amd && s.count > 0 ==> |GpuStatsOf(s, query, files).usages| == |s.amdCards|
    ensures s.vendor == Intel ==> GpuStatsOf(s, query, files) == GpuStats([0.0], [-1])
  {
    if s.vendor == Nvidia && s.count > 0 && query.Some? {
      NvidiaRowsAsWrittenShape(CsvLines(query.value));
    }
  }

  /** The loop of `get_gpu_stats` over the CSV lines of `nvidia-smi`, as
      written: the usage is appended before the temperature is parsed. */
  method ParseNvidiaCsv(out: string) returns (stats: GpuStats)
    ensures stats == NvidiaRowsAsWritten(CsvLines(out))
  {
    var lines := CsvLines(out);
    var usages: seq<real> := [];
    var temps: seq<int> := [];
    for i := 0 to |lines|
      invariant GpuStats(usages, temps) == NvidiaRowsAsWritten(lines[..i])
    {
      assert lines[..i + 1][..i] == lines[..i];
      var row := NvidiaCsvLine(lines[i]);
      usages, temps := usages + row.usages, temps + row.temps;
    }
    assert lines[..|lines|] == lines;
    stats := GpuStats(usages, temps);
  }

  /** The body of the CSV loop for one line, with its `try`/`except`. */
  method NvidiaCsvLine(line: string) returns (row: GpuStats)
    ensures row == NvidiaRowAsWritten(line)
  {
    var parts := SplitOn(line, ',');
    if |parts| < 2 {
      return GpuStats([], []);
    }
    var u := ParseFloat(Strip(parts[0]));
    if u.None? {
      return GpuStats([0.0], [-1]);
    }
    var usages := [u.value];
    var t := ParseInt(Strip(parts[1]));
    if t.None? {
      usages := usages + [0.0];
      assert usages == [u.value, 0.0];
      return GpuStats(usages, [-1]);
    }
    return GpuStats(usages, [t.value]);
  }

  /** The loop of `get_gpu_stats` over the AMD cards. */
  method ReadAmdStats(cards: seq<string>, files: map<string, AmdCardFiles>) returns (stats: GpuStats)
    ensures stats == AmdStats(cards, files)
  {
    var usages: seq<real> := [];
    var temps: seq<int> := [];
    for i := 0 to |cards|
      invariant GpuStats(usages, temps) == AmdStats(cards[..i], files)
    {
      var f := CardFiles(files, cards[i]);
      assert cards[..i + 1][..i] == cards[..i];
      usages := usages + [AmdUsage(f)];
      temps := temps + [AmdTemp(f)];
    }
    assert cards[..|cards|] == cards;
    stats := GpuStats(usages, temps);
  }

  // ===========================================================================
  // The sampler object

  /** `SystemMonitor`: the previous CPU counters and the detected GPU. */
  class SystemMonitor {
    var prevCpuTotal: int
    var prevCpuIdle: int
    var disks: seq<string>
    var gpuVendor: GpuVendor
    var gpuCount: int
    var amdCards: seq<string>

    function Gpu(): GpuState
      reads this
    {
      GpuState(gpuVendor, gpuCount, amdCards)
    }

    /** `__init__`: zero counters, no disks, then `detect_gpu()`. */
    constructor (probe: GpuProbe)
      ensures prevCpuTotal == 0 && prevCpuIdle == 0 && disks == []
      ensures Gpu() == Detect(probe, GpuState(NoGpu, 0, []))
    {
      prevCpuTotal, prevCpuIdle := 0, 0;
      disks := [];
      gpuVendor, gpuCount, amdCards := NoGpu, 0, [];
      new;
      DetectGpu(probe);
    }

    /** `detect_gpu()` */
    method DetectGpu(probe: GpuProbe)
      modifies this`gpuVendor, this`gpuCount, this`amdCards
      ensures Gpu() == Detect(probe, old(Gpu()))
    {
      if probe.nvidia.NvidiaPresent? {
        gpuVendor := Nvidia;
        gpuCount := NvidiaCount(probe.nvidia.countOutput);
        return;
      }
      var cards: seq<string> := [];
      if probe.drm.Some? {
        cards := CollectAmdCards(probe.drm.value);
      }
      if cards != [] {
        gpuVendor := Amd;
        gpuCount := |cards|;
        amdCards := SortStrings(cards);
        return;
      }
      if probe.intelInstalled {
        gpuVendor := Intel;
        gpuCount := 1;
      }
    }

    /** `get_cpu()` on the contents of /proc/stat (`None`: cannot be opened). A
        parsed sample replaces the stored counters, even when no ticks passed;
        otherwise the result is 0.0 and the counters stay. */
    method GetCpu(stat: Option<string>) returns (usage: real)
      modifies this`prevCpuTotal, this`prevCpuIdle
      ensures 0.0 <= usage <= 100.0
      ensures StatSample(stat).None? ==>
        usage == 0.0 && prevCpuTotal == old(prevCpuTotal) && prevCpuIdle == old(prevCpuIdle)
      ensures StatSample(stat).Some? ==>
        && CpuSample(prevCpuTotal, prevCpuIdle) == StatSample(stat).value
        && usage == CpuUsage(CpuSample(old(prevCpuTotal), old(prevCpuIdle)), StatSample(stat).value)
    {
      var sample := ReadCpuSample(stat);
      if sample.None? {
        return 0.0;
      }
      usage := CpuStep(sample.value.total, sample.value.idle);
    }

    /** The second half of `get_cpu`: store the parsed counters and turn the
        deltas into a percentage. */
    method CpuStep(total: int, idle: int) returns (usage: real)
      modifies this`prevCpuTotal, this`prevCpuIdle
      ensures prevCpuTotal == total && prevCpuIdle == idle
      ensures usage == CpuUsage(CpuSample(old(prevCpuTotal), old(prevCpuIdle)), CpuSample(total, idle))
    {
      var diffIdle := idle - prevCpuIdle;
      var diffTotal := total - prevCpuTotal;
      prevCpuTotal := total;
      prevCpuIdle := idle;
      if diffTotal == 0 {
        return 0.0;
      }
      var u := ((diffTotal - diffIdle) as real * 100.0) / diffTotal as real;
      usage := Clamp(u);
    }

    /** `get_gpu_stats()` with the output of the NVIDIA query (`None`: it fails)
        and the AMD cards' files as inputs. */
    method GetGpuStats(query: Option<string>, files: map<string, AmdCardFiles>) returns (stats: GpuStats)
      ensures stats == GpuStatsOf(Gpu(), query, files)
    {
      if gpuVendor == Nvidia && gpuCount > 0 {
        if query.None? {
          stats := Unknown(gpuCount);
        } else {
          stats := ParseNvidiaCsv(query.value);
        }
      } else if gpuVendor == Amd && gpuCount > 0 {
        stats := ReadAmdStats(amdCards, files);
      } else if gpuVendor == Intel {
        stats := GpuStats([0.0], [-1]);
      } else {
        stats := GpuStats([], []);
      }
    }
  }
}
