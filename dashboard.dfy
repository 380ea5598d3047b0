/**
 * The dashboard generator: from a parsed power report to the parts of an HTML page, and the
 * batch driver that turns every report of a directory into a dashboard.
 *
 * The page is a sequence of parts. Fixed markup and the stylesheet are opaque; the parts
 * that depend on the report carry the values they show (the conversion of a number to text
 * with two or one decimals is not modelled).
 */
module Dashboard {
  import opened Wrappers
  import opened PyText
  import opened ReportParser

  const CriticalClass := "metric-card power-critical"
  const WarningClass := "metric-card power-warning"
  const NormalClass := "metric-card power-normal"
  const PlainCard := "metric-card"

  /** `_get_power_class`: above 10 W critical, above 5 W warning, otherwise normal. */
  function PowerClass(powerMw: real): (c: string)
    ensures c == CriticalClass <==> powerMw > 10000.0
    ensures c == WarningClass <==> 5000.0 < powerMw <= 10000.0
    ensures c == NormalClass <==> powerMw <= 5000.0
    ensures c != PlainCard
  {
    if powerMw > 10000.0 then CriticalClass
    else if powerMw > 5000.0 then WarningClass
    else NormalClass
  }

  /** How severe a card class is: normal 0, warning 1, critical 2. */
  function Severity(c: string): nat {
    if c == CriticalClass then 2 else if c == WarningClass then 1 else 0
  }

  /** More power never gives a milder class. */
  lemma PowerClassMonotone(a: real, b: real)
    requires a <= b
    ensures Severity(PowerClass(a)) <= Severity(PowerClass(b))
  {
  }

  /** The share of the total a breakdown bar shows, in percent; 0 when the total is not positive. */
  function BreakdownPercentage(value: real, total: real): (p: real)
    ensures total > 0.0 ==> p * total == value * 100.0
    ensures total <= 0.0 ==> p == 0.0
  {
    if total > 0.0 then value / total * 100.0 else 0.0
  }

  /** A part that is at most the total gets a bar between empty and full. */
  lemma PercentageBounds(value: real, total: real)
    requires 0.0 <= value <= total
    ensures 0.0 <= BreakdownPercentage(value, total) <= 100.0
  {
    if total > 0.0 {
      var p := BreakdownPercentage(value, total);
      assert p * total == value * 100.0;
      assert value * 100.0 <= total * 100.0;
    }
  }

  /** Shares add up: the bars of two parts are together the bar of their sum. */
  lemma PercentageAdditive(a: real, b: real, total: real)
    ensures BreakdownPercentage(a + b, total) == BreakdownPercentage(a, total) + BreakdownPercentage(b, total)
  {
    if total > 0.0 {
      assert (a + b) / total == a / total + b / total;
    }
  }

  /**
   * The value a card or the severity test receives for `key` as the generator is written:
   * `metrics.get(key, 0)`. A text entry cannot be formatted as a number or compared with one,
   * so it raises instead.
   */
  function CardValueAsWritten(metrics: map<string, MetricValue>, key: string): (r: Result<real, string>)
    ensures r.Success? <==> key !in metrics || metrics[key].Num?
    ensures key in metrics && metrics[key].Num? ==> r.value == metrics[key].x
    ensures key !in metrics ==> r.value == 0.0
  {
    if key !in metrics then Success(0.0)
    else match metrics[key]
      case Num(x) => Success(x)
      case Text(_) => Failure("unknown format code 'f' for object of type 'str'")
  }

  /** The value a card shows for `key`: the number stored there, and 0 when there is none. */
  function CardNumber(metrics: map<string, MetricValue>, key: string): (x: real)
    ensures key in metrics && metrics[key].Num? ==> x == metrics[key].x
    ensures !(key in metrics && metrics[key].Num?) ==> x == 0.0
  {
    if key in metrics && metrics[key].Num? then metrics[key].x else 0.0
  }

  /** Wherever the generator as written succeeds, the cards show the same number. */
  lemma CardNumberAgrees(metrics: map<string, MetricValue>, key: string)
    ensures CardValueAsWritten(metrics, key).Success? ==> CardNumber(metrics, key) == CardValueAsWritten(metrics, key).value
    ensures CardValueAsWritten(metrics, key).Failure? ==> CardNumber(metrics, key) == CardNumber(metrics - {key}, key)
  {
  }

  /** `metrics.get(key, default)` for a field shown as text. */
  function ShownText(metrics: map<string, MetricValue>, key: string, default: string): MetricValue {
    if key in metrics then metrics[key] else Text(default)
  }

  /** The values the dashboard shows, after the defaults are filled in. */
  datatype View = View(
    total: real, cpu: real, gpu: real, memory: real,
    frequency: real, voltage: real, temperature: real,
    timestamp: MetricValue, device: MetricValue)

  function ViewOf(metrics: map<string, MetricValue>): View {
    View(
      CardNumber(metrics, "total_power_mw"), CardNumber(metrics, "cpu_power_mw"),
      CardNumber(metrics, "gpu_power_mw"), CardNumber(metrics, "memory_power_mw"),
      CardNumber(metrics, "frequency_mhz"), CardNumber(metrics, "voltage_v"),
      CardNumber(metrics, "temperature_c"),
      ShownText(metrics, "timestamp", "N/A"), ShownText(metrics, "device_name", "Unknown Device"))
  }

  /** The value of a reading field in the view. */
  function Shown(v: View, q: Quantity): real {
    match q
    case Power(Total) => v.total
    case Power(Cpu) => v.cpu
    case Power(Gpu) => v.gpu
    case Power(Memory) => v.memory
    case Frequency => v.frequency
    case Voltage => v.voltage
    case Temperature => v.temperature
    case _ => 0.0
  }

  /** Each shown reading is the number stored under that field's metric name. */
  lemma ShownFromMetrics(metrics: map<string, MetricValue>, q: Quantity)
    requires q in CardFields
    ensures Shown(ViewOf(metrics), q) == CardNumber(metrics, MetricName(q))
  {
    var v := ViewOf(metrics);
    match q
    case Power(Total) => assert MetricName(q) == "total_power_mw";
    case Power(Cpu) => assert MetricName(q) == "cpu_power_mw";
    case Power(Gpu) => assert MetricName(q) == "gpu_power_mw";
    case Power(Memory) => assert MetricName(q) == "memory_power_mw";
    case Frequency =>
    case Voltage =>
    case Temperature =>
  }

  /** The fixed lines of the page. */
  datatype Markup =
    | Doctype | HtmlOpen | HeadOpen | MetaCharset | MetaViewport | HeadClose | BodyOpen
    | DashboardOpen | HeaderOpen | DashboardTitle | HeaderClose
    | MetricsOpen | MetricsClose
    | BreakdownOpen | BreakdownTitle | BarsOpen | BarsClose | BreakdownClose
    | FooterOpen | FooterClose | DashboardClose | BodyClose | HtmlClose

  /** One entry of `html_parts`. A card or a bar names the reading field it shows. */
  datatype Piece =
    | Fixed(markup: Markup)
    | Stylesheet
    | Title(stem: string)
    | DeviceLine(device: MetricValue)
    | ReportTime(time: MetricValue)
    | SourceLine(name: string)
    | Card(field: Quantity, value: real, unit: string, cssClass: string)
    | Bar(part: Part, value: real, percentage: real)
    | Footer(generatedAt: string)

  /** The fields with a card, in page order. */
  const CardFields: seq<Quantity> :=
    [Power(Total), Power(Cpu), Power(Gpu), Power(Memory), Frequency, Voltage, Temperature]

  /** The power parts with a breakdown bar, in page order. */
  const BarParts: seq<Part> := [Cpu, Gpu, Memory]

  function HeaderSection(filename: string, v: View): seq<Piece> {
    [Fixed(Doctype), Fixed(HtmlOpen), Fixed(HeadOpen), Fixed(MetaCharset), Fixed(MetaViewport),
     Title(Stem(BaseName(filename))), Stylesheet, Fixed(HeadClose), Fixed(BodyOpen),
     Fixed(DashboardOpen), Fixed(HeaderOpen), Fixed(DashboardTitle),
     DeviceLine(v.device), ReportTime(v.timestamp), SourceLine(BaseName(filename)), Fixed(HeaderClose)]
  }

  function CardSection(v: View): seq<Piece> {
    [Fixed(MetricsOpen),
     Card(Power(Total), v.total, "mW", PowerClass(v.total)),
     Card(Power(Cpu), v.cpu, "mW", PlainCard),
     Card(Power(Gpu), v.gpu, "mW", PlainCard),
     Card(Power(Memory), v.memory, "mW", PlainCard),
     Card(Frequency, v.frequency, "MHz", PlainCard),
     Card(Voltage, v.voltage, "V", PlainCard),
     Card(Temperature, v.temperature, "\U{B0}C", PlainCard),
     Fixed(MetricsClose)]
  }

  /** `_build_breakdown_item` for one part of the total. */
  function BarOf(part: Part, value: real, total: real): Piece {
    Bar(part, value, BreakdownPercentage(value, total))
  }

  function BarSection(v: View): seq<Piece> {
    [Fixed(BreakdownOpen), Fixed(BreakdownTitle), Fixed(BarsOpen),
     BarOf(Cpu, v.cpu, v.total), BarOf(Gpu, v.gpu, v.total), BarOf(Memory, v.memory, v.total),
     Fixed(BarsClose), Fixed(BreakdownClose)]
  }

  function FooterSection(generatedAt: string): seq<Piece> {
    [Fixed(FooterOpen), Footer(generatedAt), Fixed(FooterClose), Fixed(DashboardClose), Fixed(BodyClose), Fixed(HtmlClose)]
  }

  /** The page `generate_html_dashboard` builds for a report, once `generatedAt` is known. */
  function Page(report: ParsedReport, generatedAt: string): seq<Piece> {
    var v := ViewOf(report.metrics);
    HeaderSection(report.filename, v) + CardSection(v) + BarSection(v) + FooterSection(generatedAt)
  }

  /**
   * `generate_html_dashboard`: the defaults filled in, the severity class chosen from the
   * total, and the page grown section by section. The clock reading of the footer is the
   * parameter `generatedAt`.
   */
  method GenerateHtmlDashboard(report: ParsedReport, generatedAt: string) returns (parts: seq<Piece>)
    ensures parts == Page(report, generatedAt)
  {
    var metrics := report.metrics;
    var filename := report.filename;
    var totalPower := CardNumber(metrics, "total_power_mw");
    var cpuPower := CardNumber(metrics, "cpu_power_mw");
    var gpuPower := CardNumber(metrics, "gpu_power_mw");
    var memoryPower := CardNumber(metrics, "memory_power_mw");
    var frequency := CardNumber(metrics, "frequency_mhz");
    var voltage := CardNumber(metrics, "voltage_v");
    var temperature := CardNumber(metrics, "temperature_c");
    var timestamp := ShownText(metrics, "timestamp", "N/A");
    var deviceName := ShownText(metrics, "device_name", "Unknown Device");

    var powerClass := PowerClass(totalPower);

    parts := [Fixed(Doctype), Fixed(HtmlOpen), Fixed(HeadOpen), Fixed(MetaCharset), Fixed(MetaViewport),
      Title(Stem(BaseName(filename))), Stylesheet, Fixed(HeadClose), Fixed(BodyOpen),
      Fixed(DashboardOpen), Fixed(HeaderOpen), Fixed(DashboardTitle),
      DeviceLine(deviceName), ReportTime(timestamp), SourceLine(BaseName(filename)), Fixed(HeaderClose)];

    parts := parts + [Fixed(MetricsOpen),
      Card(Power(Total), totalPower, "mW", powerClass),
      Card(Power(Cpu), cpuPower, "mW", "metric-card"),
      Card(Power(Gpu), gpuPower, "mW", "metric-card"),
      Card(Power(Memory), memoryPower, "mW", "metric-card"),
      Card(Frequency, frequency, "MHz", "metric-card"),
      Card(Voltage, voltage, "V", "metric-card"),
      Card(Temperature, temperature, "\U{B0}C", "metric-card"),
      Fixed(MetricsClose)];

    parts := parts + [Fixed(BreakdownOpen), Fixed(BreakdownTitle), Fixed(BarsOpen),
      BarOf(Cpu, cpuPower, totalPower),
      BarOf(Gpu, gpuPower, totalPower),
      BarOf(Memory, memoryPower, totalPower),
      Fixed(BarsClose), Fixed(BreakdownClose)];

    parts := parts + [Fixed(FooterOpen), Footer(generatedAt), Fixed(FooterClose),
      Fixed(DashboardClose), Fixed(BodyClose), Fixed(HtmlClose)];
  }

  /** The severity class goes to the Total Power card and to no other card. */
  lemma SeverityOnlyOnTotal(report: ParsedReport, generatedAt: string)
    ensures var p, total := Page(report, generatedAt), CardNumber(report.metrics, "total_power_mw");
      forall i | 0 <= i < |p| && p[i].Card? ::
        if p[i].field == Power(Total) then p[i].cssClass == PowerClass(total) else p[i].cssClass == PlainCard
  {
  }

  /** Every card shows the number the parser stored under its field's metric name. */
  lemma CardsShowMetrics(report: ParsedReport, generatedAt: string)
    ensures var p := Page(report, generatedAt);
      forall i | 0 <= i < |p| && p[i].Card? ::
        p[i].field in CardFields && p[i].value == CardNumber(report.metrics, MetricName(p[i].field))
  {
    var p, v := Page(report, generatedAt), ViewOf(report.metrics);
    CardSectionShape(report.filename, v, generatedAt);
    forall i | 0 <= i < |p| && p[i].Card?
      ensures p[i].field in CardFields && p[i].value == CardNumber(report.metrics, MetricName(p[i].field))
    {
      PageAt(report, generatedAt, i);
      ShownFromMetrics(report.metrics, p[i].field);
    }
  }

  /** Each field of `CardFields` has one card, and the cards come in that order. */
  lemma OneCardPerField(report: ParsedReport, generatedAt: string)
    ensures var p := Page(report, generatedAt);
      && (forall j | 0 <= j < |CardFields| :: p[17 + j].Card? && p[17 + j].field == CardFields[j])
      && (forall i | 0 <= i < |p| && p[i].Card? :: 17 <= i < 17 + |CardFields|)
  {
    var p, v := Page(report, generatedAt), ViewOf(report.metrics);
    CardSectionShape(report.filename, v, generatedAt);
    forall i | 0 <= i < |p| && p[i].Card? ensures 17 <= i < 17 + |CardFields| {
      PageAt(report, generatedAt, i);
    }
  }

  /** Each part of `BarParts` has one bar, and the bars come in that order. */
  lemma OneBarPerPart(report: ParsedReport, generatedAt: string)
    ensures var p := Page(report, generatedAt);
      && (forall j | 0 <= j < |BarParts| :: p[28 + j].Bar? && p[28 + j].part == BarParts[j])
      && (forall i | 0 <= i < |p| && p[i].Bar? :: 28 <= i < 28 + |BarParts|)
  {
    var p, v := Page(report, generatedAt), ViewOf(report.metrics);
    BarSectionShares(report.filename, v, generatedAt);
    forall i | 0 <= i < |p| && p[i].Bar? ensures 28 <= i < 28 + |BarParts| {
      PageAt(report, generatedAt, i);
    }
  }

  /** Where each index of the page falls: header, cards, bars or footer. */
  lemma PageAt(report: ParsedReport, generatedAt: string, i: nat)
    requires i < |Page(report, generatedAt)|
    ensures var p, v := Page(report, generatedAt), ViewOf(report.metrics);
      p[i] == if i < 16 then HeaderSection(report.filename, v)[i]
        else if i < 25 then CardSection(v)[i - 16]
        else if i < 33 then BarSection(v)[i - 25]
        else FooterSection(generatedAt)[i - 33]
  {
  }

  /** The bars of the page are those of the bar section. */
  lemma BarSectionShares(filename: string, v: View, generatedAt: string)
    ensures forall i | 0 <= i < 16 :: !HeaderSection(filename, v)[i].Bar?
    ensures forall i | 0 <= i < 9 :: !CardSection(v)[i].Bar?
    ensures forall i | 0 <= i < 6 :: !FooterSection(generatedAt)[i].Bar?
    ensures !BarSection(v)[0].Bar? && !BarSection(v)[1].Bar? && !BarSection(v)[2].Bar?
    ensures !BarSection(v)[6].Bar? && !BarSection(v)[7].Bar?
    ensures forall i | 0 <= i < 8 && BarSection(v)[i].Bar? ::
      var b := BarSection(v)[i];
      b.part in BarParts && b.value == Shown(v, Power(b.part)) && b.percentage == BreakdownPercentage(b.value, v.total)
  {
  }

  /** The cards of the page are those of the card section, between its opening and closing lines. */
  lemma CardSectionShape(filename: string, v: View, generatedAt: string)
    ensures forall i | 0 <= i < 16 :: !HeaderSection(filename, v)[i].Card?
    ensures forall i | 0 <= i < 8 :: !BarSection(v)[i].Card?
    ensures forall i | 0 <= i < 6 :: !FooterSection(generatedAt)[i].Card?
    ensures !CardSection(v)[0].Card? && !CardSection(v)[8].Card?
    ensures forall i | 0 <= i < 9 && CardSection(v)[i].Card? ::
      CardSection(v)[i].field in CardFields && CardSection(v)[i].value == Shown(v, CardSection(v)[i].field)
  {
  }

  /** Every breakdown bar shows a power part and its share of the total power. */
  lemma BarsShowShares(report: ParsedReport, generatedAt: string)
    ensures var p, total := Page(report, generatedAt), CardNumber(report.metrics, "total_power_mw");
      forall i | 0 <= i < |p| && p[i].Bar? ::
        && p[i].part in BarParts
        && p[i].value == CardNumber(report.metrics, MetricName(Power(p[i].part)))
        && p[i].percentage == BreakdownPercentage(p[i].value, total)
  {
    var p, v := Page(report, generatedAt), ViewOf(report.metrics);
    ShownFromMetrics(report.metrics, Power(Cpu));
    ShownFromMetrics(report.metrics, Power(Gpu));
    ShownFromMetrics(report.metrics, Power(Memory));
    BarSectionShares(report.filename, v, generatedAt);
    forall i | 0 <= i < |p| && p[i].Bar?
      ensures p[i].part in BarParts && p[i].value == Shown(v, Power(p[i].part))
      ensures p[i].percentage == BreakdownPercentage(p[i].value, v.total)
    {
      PageAt(report, generatedAt, i);
    }
  }

  /** The three bars together show the share of the three parts together. */
  lemma BarsAddUp(v: View)
    ensures BarOf(Cpu, v.cpu, v.total).percentage + BarOf(Gpu, v.gpu, v.total).percentage
      + BarOf(Memory, v.memory, v.total).percentage == BreakdownPercentage(v.cpu + v.gpu + v.memory, v.total)
  {
    PercentageAdditive(v.cpu, v.gpu, v.total);
    PercentageAdditive(v.cpu + v.gpu, v.memory, v.total);
  }

  /** A report without metrics shows zeros, a normal total, an unknown device and no time. */
  lemma EmptyReportDefaults(report: ParsedReport, generatedAt: string)
    requires report.metrics == map[]
    ensures var p := Page(report, generatedAt);
      && (forall i | 0 <= i < |p| && p[i].Card? :: p[i].value == 0.0)
      && (forall i | 0 <= i < |p| && p[i].Card? && p[i].field == Power(Total) :: p[i].cssClass == NormalClass)
      && (forall i | 0 <= i < |p| && p[i].Bar? :: p[i].value == 0.0 && p[i].percentage == 0.0)
      && DeviceLine(Text("Unknown Device")) in p && ReportTime(Text("N/A")) in p
  {
    CardsShowMetrics(report, generatedAt);
    SeverityOnlyOnTotal(report, generatedAt);
    BarsShowShares(report, generatedAt);
    HeaderNamesReport(report, generatedAt);
  }

  /** The header names the report: its file name without directories, and that name's stem. */
  lemma HeaderNamesReport(report: ParsedReport, generatedAt: string)
    ensures var p := Page(report, generatedAt);
      && Title(Stem(BaseName(report.filename))) in p && SourceLine(BaseName(report.filename)) in p
      && Footer(generatedAt) in p
      && DeviceLine(ShownText(report.metrics, "device_name", "Unknown Device")) in p
      && ReportTime(ShownText(report.metrics, "timestamp", "N/A")) in p
  {
    var p := Page(report, generatedAt);
    assert p[5] == Title(Stem(BaseName(report.filename)));
    assert p[14] == SourceLine(BaseName(report.filename));
    assert p[34] == Footer(generatedAt);
    assert p[12] == DeviceLine(ShownText(report.metrics, "device_name", "Unknown Device"));
    assert p[13] == ReportTime(ShownText(report.metrics, "timestamp", "N/A"));
  }

  /** `generate_dashboard_from_file`: the page of the report at `path`, or None when the
      parser gives none. */
  method GenerateDashboardFromFile(sc: Scanner, path: string, contents: Option<string>, parsedAt: string, generatedAt: string)
    returns (r: Option<seq<Piece>>)
    ensures r.Some? <==> IsValidReportFile(path) && contents.Some?
    ensures r.Some? ==> r.value == Page(ParsedReport(path, parsedAt,
      Metrics(sc, Split(contents.value, '\n')), RawMetrics(sc, Split(contents.value, '\n'))), generatedAt)
  {
    var parsed := ParseFile(sc, path, contents, parsedAt);
    if parsed.None? {
      return None;
    }
    var html := GenerateHtmlDashboard(parsed.value, generatedAt);
    r := Some(html);
  }

  /** The name of the dashboard written for a report: the report's stem with `.html`. */
  function OutputName(name: string): (out: string)
    ensures EndsWith(out, ".html")
  {
    Stem(name) + ".html"
  }

  /** A report `x.report.avgpwr` gets the dashboard `x.report.html`, never its own name. */
  lemma OutputNameOfReport(name: string)
    requires IsValidReportFile(name)
    ensures OutputName(name) == name[..|name| - 7] + ".html"
    ensures OutputName(name) != name
  {
    assert name[|name| - 7..] == name[|name| - 14..][7..];
    StemOfDotted(name, "avgpwr");
  }

  /** An entry of the report directory: its name, and what reading it gives (None when it
      cannot be read). */
  datatype DirEntry = DirEntry(name: string, contents: Option<string>)

  /** An entry the batch driver turns into a dashboard: it matches `*.report.avgpwr` and can be read. */
  predicate Converted(e: DirEntry) {
    IsValidReportFile(e.name) && e.contents.Some?
  }

  lemma ReportInDirectory(directory: string, name: string)
    requires IsValidReportFile(name)
    ensures IsValidReportFile(directory + "/" + name)
  {
    var path := directory + "/" + name;
    assert path[|path| - 14..] == name[|name| - 14..];
  }

  /** One entry of the batch: the output name of its dashboard, when one is generated. */
  method ProcessEntry(sc: Scanner, directory: string, entry: DirEntry, parsedAt: string, generatedAt: string)
    returns (outputFilename: Option<string>)
    ensures outputFilename == if Converted(entry) then Some(OutputName(entry.name)) else None
  {
    if !IsValidReportFile(entry.name) {
      return None;
    }
    ReportInDirectory(directory, entry.name);
    var html := GenerateDashboardFromFile(sc, directory + "/" + entry.name, entry.contents, parsedAt, generatedAt);
    if html.Some? && |html.value| > 0 {
      outputFilename := Some(OutputName(entry.name));
    } else {
      outputFilename := None;
    }
  }

  /**
   * `process_power_reports` over the listing `entries` of `directory`: every entry matching
   * the report pattern whose dashboard could be generated is mapped to its output name.
   */
  method ProcessPowerReports(sc: Scanner, directory: string, entries: seq<DirEntry>, parsedAt: string, generatedAt: string)
    returns (results: map<string, string>)
    ensures forall n :: n in results <==> exists j :: 0 <= j < |entries| && entries[j].name == n && Converted(entries[j])
    ensures forall n | n in results :: results[n] == OutputName(n)
  {
    results := map[];
    for i := 0 to |entries|
      invariant forall n :: n in results <==> exists j :: 0 <= j < i && entries[j].name == n && Converted(entries[j])
      invariant forall n | n in results :: results[n] == OutputName(n)
    {
      var outputFilename := ProcessEntry(sc, directory, entries[i], parsedAt, generatedAt);
      if outputFilename.Some? {
        results := results[entries[i].name := outputFilename.value];
      }
    }
  }
}
