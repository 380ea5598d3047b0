# Power-report dashboards, modelled in Dafny

This project models the core of `backend.py`. That file has two parts:
- The power-report parser, `PowerReportParser`. It reads the text of a `.report.avgpwr` summary and builds two maps. `metrics` maps a canonical metric name to its value in a canonical unit, and also holds `label: value` passthrough pairs. `raw_metrics` keeps the value and unit each reading was printed with.
- The HTML dashboard generator, `HTMLDashboardGenerator`, and the batch driver `process_power_reports`.

The project has six modules:
- `Wrappers` holds `Option` and `Result`.
- `PyText` models the Python string operations the source relies on: `lower`, `strip`, `split('\n')`, `startswith`, `endswith`, and the `name` and `stem` of a `pathlib.Path`.
- `Units` models the four unit normalisers, and converters back for each.
- `ReportParser` models `is_valid_report_file`, `parse_file` and `_parse_content`.
- `Dashboard` models:
  - `_get_power_class`;
  - `_build_breakdown_item`;
  - `generate_html_dashboard` (defaults, value selection, class selection, and parts grown section by section);
  - `generate_dashboard_from_file`;
  - the output-name rule and the result map of `process_power_reports`.
- `Findings` covers the one discrepancy recorded below.

How the source's behaviour is represented:
- **Numbers** are exact `real`s, so the ×1000 and ÷1000 of the normalisers are exact.
- **Regular expressions** are a parameter. A `Scanner` says what each compiled pattern captures on one line. A pattern's `search(content)` is the capture on the first line that has one (`ReportParser.Search`). The `metric_line` pattern is applied to each stripped line.
- **The two steps of `_parse_content`** are imperative, as in the source:
  - `ReportParser.ReadFields` records the recognised fields in order (timestamp, device name, the five power fields in a loop, then frequency, voltage, temperature and duration).
  - `ReportParser.AddPassthrough` walks the lines and adds each new key. Only this pass skips comment lines: the recognised-field patterns search the whole content, so a comment line such as `# Total Power: 5 W` still sets `total_power_mw` (`ReportParser.CommentReadingsRecorded`).
  - Each method is proved equal to a function of the report lines: `Canonical` and `RawMetrics` for the first, and the fold `Merge` for the second. The properties the source promises are lemmas about those functions.
- **The page** is a sequence of `Piece`s: fixed markup and the stylesheet are opaque, and the parts that depend on the report carry the values they show.
- **The clock** readings `datetime.utcnow()` are the parameters `parsedAt` and `generatedAt`.
- **The file system**: what reading a file gives is an `Option<string>` (None when opening or reading fails with an OS error). A file that is not valid UTF-8 makes the source raise `UnicodeDecodeError`, which `except (IOError, OSError)` does not catch; that case is not modelled. A directory is a sequence of `DirEntry`s.

## Model

| member | source | states |
|---|---|---|
| `Units.PowerTokens` | backend.py:154-161 | `W` and `w` give value×1000, `µW` and `µw` give value/1000, and `mW`, `mw` and `MW` leave the value unchanged. |
| `Units.FrequencyTokens` | backend.py:164-171 | `GHz` gives ×1000, `KHz` and `kHz` give /1000, and `MHz` in any case is unchanged. |
| `Units.VoltageTokens` | backend.py:174-179 | `mV` in any case gives /1000, and `V` or `v` is unchanged. |
| `Units.DurationTokens` | backend.py:182-189 | `s` gives ×1000, `µs` gives /1000, and `ms` in any case is unchanged. |
| `Units.RoundTrips` | backend.py:154-189 | For every token, each normaliser and converting back to that token are inverse, in both orders. |
| `Units.CaseInsensitive` | backend.py:156-186 | A token and its lower-cased form convert alike, for all four normalisers. |
| `Units.Monotone` | backend.py:154-189 | Every normaliser preserves the order of values for a fixed token. |
| `Units.UnitsAgree` | backend.py:154-189 | One quantity written in any recognised unit of its kind normalises to the same canonical value. |
| `ReportParser.Search` | backend.py:86 | A pattern's search finds nothing exactly when no line matches. Otherwise its result is the capture on the first line that matches. |
| `ReportParser.SearchConcat` | backend.py:86 | The text before a point decides a search unless it has no match itself (first match wins). |
| `ReportParser.NamesDistinct` | backend.py:96-140 | Distinct fields never share a key in `metrics` or in `raw_metrics`, and no reading key is a text field's key. |
| `ReportParser.TextRecorded` | backend.py:85-93 | A matched timestamp or device name is stored as text under `timestamp` / `device_name`. Unmatched, the key is not canonical, and it is present only if a passthrough line offers it. |
| `ReportParser.ReadingRecorded` | backend.py:96-140 | When a field's pattern matches, `metrics` holds the normalised value under the field's key, whatever the passthrough lines say, and `raw_metrics` holds the printed value and unit. When it does not match, no key comes from that field. |
| `ReportParser.PowerFieldRecorded` | backend.py:96-105 | A matched power field is stored in mW under `<part>_power_mw`, with value and unit under `<part>` in `raw_metrics`. An unmatched one adds no raw entry. |
| `ReportParser.TemperatureKeptAsPrinted` | backend.py:126-131 | A matched temperature is stored under `temperature_c` exactly as printed, with no conversion for any unit. |
| `ReportParser.RawKeysFromFields` | backend.py:96-140 | Every key of `raw_metrics` is the raw name of a field whose pattern matched. |
| `ReportParser.CanonicalKeys` | backend.py:85-140 | Every key the recognised fields contribute is the name of a text field or reading field whose pattern matched. |
| `ReportParser.MetricKeyShape` | backend.py:146 | A passthrough key has the label's length, holds no space and no upper-case letter, and deriving it again changes nothing. |
| `ReportParser.MergeLookup` | backend.py:143-149 | After the passthrough pass, a key is present iff it is canonical or some line offers it. Canonical values are never overwritten. A new key holds the value of the first line offering it. |
| `ReportParser.PassthroughFirstWins` | backend.py:143-149 | If line i is the first to offer key k, then k is in `metrics`. It holds the canonical value when k is canonical, else the text on line i. |
| `ReportParser.PassthroughSource` | backend.py:143-149 | Every non-canonical key of `metrics` comes from some line that offers it, with that line's text. |
| `ReportParser.CommentLinesIgnored` | backend.py:145 | A line that starts with `#` once stripped adds nothing in the passthrough pass. With the canonical map fixed, deleting it leaves the merged map unchanged. |
| `ReportParser.CommentReadingsRecorded` | backend.py:97-104 | The recognised fields are searched in comment lines too. A lone comment line carrying a reading sets that field's key to the normalised value, and the report without the line lacks the key. |
| `ReportParser.SilentLineIgnored` | backend.py:143-149 | A line the `label: value` pattern rejects adds nothing in the passthrough pass. With the canonical map fixed, deleting it leaves the merged map unchanged. |
| `ReportParser.RecordTextField` | backend.py:86-93 | Recording one text field gives the canonical map extended by that field's first capture, if any. |
| `ReportParser.RecordField` | backend.py:97-105 | Recording one reading field extends `metrics` by its normalised value and `raw_metrics` by its reading, if the pattern matched. |
| `ReportParser.ReadFields` | backend.py:85-140 | The recognised-field phase yields exactly `Canonical` and `RawMetrics` of the report lines. |
| `ReportParser.AddPassthrough` | backend.py:143-149 | The loop over lines yields exactly the fold `Merge` of the canonical map over the lines. |
| `ReportParser.ParseContent` | backend.py:67-151 | The parsed record keeps the file name and the parse time, and its maps are those of the lines of `content`. |
| `ReportParser.ValidReportFiles` | backend.py:41-43 | Every name with the `.report.avgpwr` suffix is accepted, and every accepted name is a prefix followed by that suffix. |
| `ReportParser.ParseFile` | backend.py:45-65 | A result exists iff the path has the report suffix and opening and reading the file raised no OS error. The result is the parse of the file's text under that path. |
| `Dashboard.PowerClass` | backend.py:477-483 | Above 10000 mW gives critical. Above 5000 up to and including 10000 gives warning. At most 5000 gives normal. The result is never the plain card class. |
| `Dashboard.PowerClassMonotone` | backend.py:477-483 | More power never gives a milder severity class. |
| `Dashboard.BreakdownPercentage` | backend.py:499 | With a positive total, percentage × total = value × 100. Otherwise the percentage is 0. |
| `Dashboard.PercentageBounds` | backend.py:499 | A part between 0 and the total gets a percentage between 0 and 100. |
| `Dashboard.PercentageAdditive` | backend.py:499 | The percentage of a sum of parts is the sum of their percentages. |
| `Dashboard.CardValueAsWritten` | backend.py:406-412 | As written, a card value is the number stored for its key, or 0 when the key is absent. It fails exactly when text is stored there. |
| `Dashboard.CardNumber` | backend.py:406-412 | A card value is the number stored for its key, and 0 when there is none. |
| `Dashboard.CardNumberAgrees` | backend.py:406-412 | Where the as-written lookup succeeds it gives the same number. Where it fails, the card shows what it shows with the key absent. |
| `Dashboard.ShownFromMetrics` | backend.py:406-412 | Each card field's shown value is the number stored under that field's metric name, with the default 0. |
| `Dashboard.GenerateHtmlDashboard` | backend.py:392-474 | The parts built for a report are its page: header, seven cards, three bars, footer. |
| `Dashboard.SeverityOnlyOnTotal` | backend.py:417-449 | The Total Power card gets the class chosen from the total power, and every other card gets plain `metric-card`. |
| `Dashboard.CardsShowMetrics` | backend.py:406-449 | Every card shows the number stored under the metric name of its field, or 0. |
| `Dashboard.OneCardPerField` | backend.py:440-450 | The page has one card per field (total, CPU, GPU, memory, frequency, voltage, temperature), in that order, and no other cards. |
| `Dashboard.BarsShowShares` | backend.py:453-462 | Every breakdown bar is for CPU, GPU or memory, shows that part's power, and shows its percentage of the total. |
| `Dashboard.OneBarPerPart` | backend.py:453-462 | The page has one bar each for CPU, GPU and memory, in that order, and no other bars. |
| `Dashboard.BarsAddUp` | backend.py:457-459 | The three bars' percentages add up to the percentage of the three parts together. |
| `Dashboard.EmptyReportDefaults` | backend.py:406-417 | A report without metrics shows 0 on every card and bar, a normal total, `Unknown Device` and `N/A`. |
| `Dashboard.HeaderNamesReport` | backend.py:421-436 | The header holds the report file's stem as title, its base name as source, the device and time (with their defaults), and the footer holds the generation time. |
| `Dashboard.GenerateDashboardFromFile` | backend.py:510-523 | A page exists iff the parser accepts the path and the file could be read. It is the page of the parsed report. |
| `Dashboard.OutputName` | backend.py:556 | The output name ends in `.html`. |
| `Dashboard.OutputNameOfReport` | backend.py:556 | The dashboard for `x.report.avgpwr` is named `x.report.html`, which is never the report's own name. |
| `Dashboard.ReportInDirectory` | backend.py:547-552 | A name that matches the glob gives a path inside the directory that the parser accepts. |
| `Dashboard.ProcessEntry` | backend.py:549-566 | One directory entry yields the output name iff it matches `*.report.avgpwr` and can be read, and nothing otherwise. |
| `Dashboard.ProcessPowerReports` | backend.py:526-568 | The result maps exactly the names of the convertible entries, each to its stem plus `.html`. |
| `Findings.TextUnderNumericKey` | backend.py:143-149 | As written: a report whose only line is `cpu_power_mw: high` stores the text `high` under `cpu_power_mw`, and the CPU card's value fails. |
| `Findings.TextShownAsAbsent` | backend.py:406-412 | Corrected: the same report shows 0 on the CPU card and bar, as for a report without that line. |

## Left out

- File reading and writing, directory creation and `print` logging: the text of a file is an input, and the HTML written out is the returned page.
- The command-line entry point at the end of `backend.py`, and all of `app.py`: both are I/O wrappers.
- `datetime.utcnow()`: both clock readings are parameters, `parsedAt` and `generatedAt`.
- The regular expressions themselves:
  - each pattern is the abstract per-line capture of a `Scanner`;
  - a match that spans a line break is not modelled;
  - the capture-group details of the timestamp and device patterns are not modelled.
- `float(...)` conversion, floating-point rounding and the `.2f` / `.1f` formatting of values: values are exact reals shown unformatted.
- The CSS template and the exact HTML text: they are opaque parts. The final `'\n'.join` of the parts is not modelled, so `Dashboard.GenerateHtmlDashboard` returns the parts.
- `PyText.Lower`: it models Python's `str.lower` for ASCII and Latin-1 capitals only, so labels and unit tokens outside that range are keyed or converted differently from the source:
  - The `label: value` pattern accepts any Unicode word character. For `Σ Power: 5` the source's key is `σ_power`, while the model's is `Σ_power`.
  - The case-insensitive `KHz` alternative also matches U+212A KELVIN SIGN followed by `Hz`. Python lowers that sign to `k` and divides by 1000, while `Units.NormalizeFrequency` leaves the value unchanged.
- `ReportParser.MetricKeyShape`: "the key has the label's length" holds for the model's `Lower` only. In Python, a capital such as `İ` lowers to two characters.
- `filename` defaults (`parsed_data.get('filename', 'Unknown')`, `parsed_data.get('metrics', {})`): every parsed report has both, so these defaults are never taken on the modelled paths.
- Dictionary insertion order, which the source never relies on, and `Path` normalisation of directory names: a path is the directory, `/`, and the entry name.
- `Dashboard.ProcessEntry`: the source's `if html_content` test is modelled as "the page has at least one part," which holds for every page. This matches the source, since the joined HTML is never empty.
- `Dashboard.CardNumber` is the corrected card lookup of the Findings row. The members below use it and state what the corrected generator does. For a report holding text under a numeric card's key (the passthrough line `cpu_power_mw: high`), the source as written raises while formatting that card. `process_power_reports` catches nothing, so the batch stops at the first such report and returns no map. Each of these members is stated for the corrected lookup:
- `Dashboard.ShownFromMetrics`: follows the corrected lookup. As written, a text entry makes the generator raise rather than show a value.
- `Dashboard.GenerateHtmlDashboard`: follows the corrected lookup and returns a page. As written, the generator raises for such a report.
- `Dashboard.CardsShowMetrics`: follows the corrected lookup (a text entry shows 0). As written, the generator raises for such a report.
- `Dashboard.GenerateDashboardFromFile`: follows the corrected lookup and returns a page. As written, it raises for such a report.
- `Dashboard.ProcessEntry`: follows the corrected lookup and returns the output name. As written, the generator raises and the batch stops there.
- `Dashboard.ProcessPowerReports`: follows the corrected lookup and returns the full map. As written, the batch stops at the first such report and returns no map at all.
- The directory listing of `glob('*.report.avgpwr')` is a sequence of entries, filtered by the same suffix test as the parser. Its order and hidden-file rules are not modelled.

## Findings

| source | as written | input that shows it | evidently intended | confidence | as-written member | corrected member |
|---|---|---|---|---|---|---|
| backend.py:143-149 | The passthrough pass stores text under any key it derives, a canonical numeric key included, when that field's own pattern did not match. `generate_html_dashboard` then formats that text with `.2f`, and `_get_power_class` compares it with an int, so generation raises. | A report whose only line is `cpu_power_mw: high`. Ordinary labels do the same when the field's own pattern does not match: `Frequency MHz: 500` stores the text `500` under `frequency_mhz`, and `Total Power mW: 1234` stores text under `total_power_mw`, where the `>` of `_get_power_class` raises. | A text entry under a numeric card's key is shown like an absent metric (0) rather than aborting the dashboard. | not executed | `Dashboard.CardValueAsWritten` (shown by `Findings.TextUnderNumericKey`) | `Dashboard.CardNumber` (shown by `Findings.TextShownAsAbsent`) |
