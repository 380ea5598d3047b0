/**
 * The power-report parser: from the text of a `.report.avgpwr` summary to a record
 * holding `metrics` (canonical metric name to normalised value, plus passthrough
 * `label: value` pairs) and `raw_metrics` (the value and unit each reading was printed with).
 *
 * The compiled regular expressions are not modelled. A `Scanner` stands for them: it says,
 * for one line, what a pattern captures there, if anything. A pattern's search over the
 * report is its first match, line by line.
 */
module ReportParser {
  import opened Wrappers
  import opened PyText
  import opened Units

  /** A number and the unit token printed after it. */
  datatype Reading = Reading(value: real, unit: string)

  /** The fields captured as text. */
  datatype TextField = Timestamp | DeviceName

  /** The five power fields, in the order the parser visits them. */
  datatype Part = Total | Cpu | Gpu | Memory | Other

  /** The fields captured as a reading. */
  datatype Quantity = Power(part: Part) | Frequency | Voltage | Temperature | Duration

  /** What the patterns capture on one line: the two text patterns, the nine reading
      patterns, and the `label: value` pattern applied to a stripped line. */
  datatype Scanner = Scanner(
    text: (TextField, string) -> Option<string>,
    reading: (Quantity, string) -> Option<Reading>,
    metricLine: string -> Option<(string, string)>)

  /** An entry of `metrics`: a normalised number, or text (timestamp, device, passthrough). */
  datatype MetricValue = Num(x: real) | Text(s: string)

  datatype ParsedReport = ParsedReport(
    filename: string,
    parsedTimestamp: string,
    metrics: map<string, MetricValue>,
    rawMetrics: map<string, Reading>)

  const PowerParts: seq<Part> := [Total, Cpu, Gpu, Memory, Other]

  /** Every reading field, in the order the parser records them. */
  const Quantities: seq<Quantity> :=
    [Power(Total), Power(Cpu), Power(Gpu), Power(Memory), Power(Other), Frequency, Voltage, Temperature, Duration]

  function PartName(p: Part): string {
    match p
    case Total => "total"
    case Cpu => "cpu"
    case Gpu => "gpu"
    case Memory => "memory"
    case Other => "other"
  }

  function TextName(f: TextField): string {
    match f
    case Timestamp => "timestamp"
    case DeviceName => "device_name"
  }

  /** The key of a reading's normalised value in `metrics`. */
  function MetricName(q: Quantity): string {
    match q
    case Power(p) => PartName(p) + "_power_mw"
    case Frequency => "frequency_mhz"
    case Voltage => "voltage_v"
    case Temperature => "temperature_c"
    case Duration => "duration_ms"
  }

  /** The key of a reading in `raw_metrics`. */
  function RawName(q: Quantity): string {
    match q
    case Power(p) => PartName(p)
    case Frequency => "frequency"
    case Voltage => "voltage"
    case Temperature => "temperature"
    case Duration => "duration"
  }

  /** The canonical value of a reading; a temperature is kept as printed, whatever its unit. */
  function Normalize(q: Quantity, r: Reading): real {
    match q
    case Power(_) => NormalizePower(r.value, r.unit)
    case Frequency => NormalizeFrequency(r.value, r.unit)
    case Voltage => NormalizeVoltage(r.value, r.unit)
    case Temperature => r.value
    case Duration => NormalizeDuration(r.value, r.unit)
  }

  /** Distinct fields never share a key, in `metrics` or in `raw_metrics`. */
  lemma NamesDistinct(q1: Quantity, q2: Quantity, f: TextField)
    ensures MetricName(q1) == MetricName(q2) ==> q1 == q2
    ensures RawName(q1) == RawName(q2) ==> q1 == q2
    ensures MetricName(q1) != TextName(f)
  {
    var a, b := MetricName(q1), MetricName(q2);
    if a == b {
      assert a[0] == b[0] && a[1] == b[1];
    }
  }

  /** The index of the first line `f` captures something on, or `|lines|` if none. */
  function FirstIndex<T>(f: string -> Option<T>, lines: seq<string>): (i: nat)
    ensures i <= |lines|
    ensures forall j :: 0 <= j < i ==> f(lines[j]).None?
    ensures i < |lines| ==> f(lines[i]).Some?
  {
    if lines == [] || f(lines[0]).Some? then 0 else 1 + FirstIndex(f, lines[1..])
  }

  /** A pattern's `search` over the report: the capture on the first line that has one. */
  function Search<T>(f: string -> Option<T>, lines: seq<string>): (r: Option<T>)
    ensures r.None? <==> forall j :: 0 <= j < |lines| ==> f(lines[j]).None?
    ensures r.Some? ==> exists j :: 0 <= j < |lines| && f(lines[j]) == r && forall i :: 0 <= i < j ==> f(lines[i]).None?
  {
    var i := FirstIndex(f, lines);
    if i < |lines| then f(lines[i]) else None
  }

  /** The text before a line decides a search unless it has no match itself. */
  lemma {:induction false} SearchConcat<T>(f: string -> Option<T>, a: seq<string>, b: seq<string>)
    ensures Search(f, a + b) == if Search(f, a).Some? then Search(f, a) else Search(f, b)
  {
    if a != [] {
      assert (a + b)[0] == a[0];
      if f(a[0]).None? {
        assert (a + b)[1..] == a[1..] + b;
        SearchConcat(f, a[1..], b);
        assert Search(f, a + b) == Search(f, a[1..] + b);
        assert Search(f, a) == Search(f, a[1..]);
      }
    } else {
      assert a + b == b;
    }
  }

  function FirstText(sc: Scanner, f: TextField, lines: seq<string>): Option<string> {
    Search(TextMatcher(sc, f), lines)
  }

  function FirstReading(sc: Scanner, q: Quantity, lines: seq<string>): Option<Reading> {
    Search(ReadingMatcher(sc, q), lines)
  }

  function TextMatcher(sc: Scanner, f: TextField): string -> Option<string> {
    l => sc.text(f, l)
  }

  function ReadingMatcher(sc: Scanner, q: Quantity): string -> Option<Reading> {
    l => sc.reading(q, l)
  }

  function RecordText(m: map<string, MetricValue>, sc: Scanner, lines: seq<string>, f: TextField): map<string, MetricValue> {
    match FirstText(sc, f, lines)
    case None => m
    case Some(s) => m[TextName(f) := Text(s)]
  }

  function RecordReading(m: map<string, MetricValue>, sc: Scanner, lines: seq<string>, q: Quantity): map<string, MetricValue> {
    match FirstReading(sc, q, lines)
    case None => m
    case Some(r) => m[MetricName(q) := Num(Normalize(q, r))]
  }

  function RecordRaw(raw: map<string, Reading>, sc: Scanner, lines: seq<string>, q: Quantity): map<string, Reading> {
    match FirstReading(sc, q, lines)
    case None => raw
    case Some(r) => raw[RawName(q) := r]
  }

  /** `m` with the normalised value of each field of `qs` that the report holds. */
  function RecordReadings(m: map<string, MetricValue>, sc: Scanner, lines: seq<string>, qs: seq<Quantity>): map<string, MetricValue>
    decreases |qs|
  {
    if qs == [] then m
    else RecordReading(RecordReadings(m, sc, lines, qs[..|qs| - 1]), sc, lines, qs[|qs| - 1])
  }

  /** `raw` with the printed reading of each field of `qs` that the report holds. */
  function RecordRaws(raw: map<string, Reading>, sc: Scanner, lines: seq<string>, qs: seq<Quantity>): map<string, Reading>
    decreases |qs|
  {
    if qs == [] then raw
    else RecordRaw(RecordRaws(raw, sc, lines, qs[..|qs| - 1]), sc, lines, qs[|qs| - 1])
  }

  /** The entries the recognised fields contribute to `metrics`. */
  function Canonical(sc: Scanner, lines: seq<string>): map<string, MetricValue> {
    var texts := RecordText(RecordText(map[], sc, lines, Timestamp), sc, lines, DeviceName);
    RecordReadings(texts, sc, lines, Quantities)
  }

  /** `raw_metrics` of a report. */
  function RawMetrics(sc: Scanner, lines: seq<string>): map<string, Reading> {
    RecordRaws(map[], sc, lines, Quantities)
  }

  /** The key a passthrough label is stored under: lower-cased, spaces turned into `_`. */
  function MetricKey(name: string): string {
    ReplaceChar(Lower(name), ' ', '_')
  }

  lemma MetricKeyShape(name: string)
    ensures |MetricKey(name)| == |name|
    ensures ' ' !in MetricKey(name)
    ensures forall k :: 0 <= k < |name| ==> !IsUpper(MetricKey(name)[k])
    ensures MetricKey(MetricKey(name)) == MetricKey(name)
  {
    LowerIdempotent(name);
    var key := MetricKey(name);
    assert Lower(key) == key;
  }

  /** The passthrough entry a line offers: none for a comment line or a line the
      `label: value` pattern rejects, else the derived key and the stripped value. */
  function Entry(sc: Scanner, line: string): Option<(string, string)> {
    var t := Strip(line);
    if StartsWith(t, "#") then None
    else
      match sc.metricLine(t)
      case None => None
      case Some(lv) => Some((MetricKey(lv.0), Strip(lv.1)))
  }

  /** What each line offers as a passthrough entry (`Entry` of a scanner). */
  type Entries = string -> Option<(string, string)>

  function EntryOf(sc: Scanner): Entries {
    l => Entry(sc, l)
  }

  function EntryValue(entry: Entries, line: string, key: string): Option<string> {
    match entry(line)
    case Some(kv) => if kv.0 == key then Some(kv.1) else None
    case None => None
  }

  /** Every key some line of the report offers as a passthrough entry. */
  function PassKeys(entry: Entries, lines: seq<string>): set<string> {
    set i | 0 <= i < |lines| && entry(lines[i]).Some? :: entry(lines[i]).value.0
  }

  /** The value of the first line offering `key`. */
  function FirstValue(entry: Entries, lines: seq<string>, key: string): Option<string> {
    Search(ValueMatcher(entry, key), lines)
  }

  function ValueMatcher(entry: Entries, key: string): string -> Option<string> {
    l => EntryValue(entry, l, key)
  }

  /** `canonical` extended by the passthrough entries of `lines`, one line at a time: a line's
      entry is added when its key is new, and ignored otherwise. */
  function Merge(canonical: map<string, MetricValue>, entry: Entries, lines: seq<string>): map<string, MetricValue>
    decreases |lines|
  {
    if lines == [] then canonical
    else
      var m := Merge(canonical, entry, lines[..|lines| - 1]);
      match entry(lines[|lines| - 1])
      case None => m
      case Some(kv) => if kv.0 in m then m else m[kv.0 := Text(kv.1)]
  }

  /** A key has a first value exactly when some line offers it. */
  lemma FirstValueFound(entry: Entries, lines: seq<string>, k: string)
    ensures FirstValue(entry, lines, k).Some? <==> k in PassKeys(entry, lines)
  {
    if k in PassKeys(entry, lines) {
      var w :| 0 <= w < |lines| && entry(lines[w]).Some? && entry(lines[w]).value.0 == k;
      assert ValueMatcher(entry, k)(lines[w]).Some?;
    }
    if FirstValue(entry, lines, k).Some? {
      var i := FirstIndex(ValueMatcher(entry, k), lines);
      assert EntryValue(entry, lines[i], k).Some?;
    }
  }

  /** `metrics` of a report. */
  function Metrics(sc: Scanner, lines: seq<string>): map<string, MetricValue> {
    Merge(Canonical(sc, lines), EntryOf(sc), lines)
  }

  lemma AllQuantitiesListed(q: Quantity)
    ensures q in Quantities
  {
    match q
    case Power(p) => {
      match p
      case Total => assert Quantities[0] == q;
      case Cpu => assert Quantities[1] == q;
      case Gpu => assert Quantities[2] == q;
      case Memory => assert Quantities[3] == q;
      case Other => assert Quantities[4] == q;
    }
    case Frequency => assert Quantities[5] == q;
    case Voltage => assert Quantities[6] == q;
    case Temperature => assert Quantities[7] == q;
    case Duration => assert Quantities[8] == q;
  }

  /** Recording the fields `qs` sets the key of each field of `qs` the report holds, and
      leaves every other field's key as it was in `m`. */
  lemma {:induction false} RecordReadingsLookup(m: map<string, MetricValue>, sc: Scanner, lines: seq<string>, qs: seq<Quantity>, q: Quantity)
    ensures var r := RecordReadings(m, sc, lines, qs);
      if q in qs && FirstReading(sc, q, lines).Some? then
        MetricName(q) in r && r[MetricName(q)] == Num(Normalize(q, FirstReading(sc, q, lines).value))
      else
        (MetricName(q) in r <==> MetricName(q) in m) && (MetricName(q) in m ==> r[MetricName(q)] == m[MetricName(q)])
    decreases |qs|
  {
    if qs != [] {
      var init, last := qs[..|qs| - 1], qs[|qs| - 1];
      assert qs == init + [last];
      RecordReadingsLookup(m, sc, lines, init, q);
      assert RecordReadings(m, sc, lines, qs) == RecordReading(RecordReadings(m, sc, lines, init), sc, lines, last);
      if q != last {
        NamesDistinct(q, last, Timestamp);
        assert q in qs <==> q in init;
      }
    }
  }

  /** Recording readings never touches a key that is no field's metric name. */
  lemma {:induction false} RecordReadingsKeep(m: map<string, MetricValue>, sc: Scanner, lines: seq<string>, qs: seq<Quantity>, k: string)
    requires forall q :: MetricName(q) != k
    ensures var r := RecordReadings(m, sc, lines, qs);
      (k in r <==> k in m) && (k in m ==> r[k] == m[k])
    decreases |qs|
  {
    if qs != [] {
      RecordReadingsKeep(m, sc, lines, qs[..|qs| - 1], k);
    }
  }

  lemma {:induction false} RecordReadingsKeys(m: map<string, MetricValue>, sc: Scanner, lines: seq<string>, qs: seq<Quantity>)
    ensures RecordReadings(m, sc, lines, qs).Keys <= m.Keys + set q | q in qs :: MetricName(q)
    decreases |qs|
  {
    if qs != [] {
      var init := qs[..|qs| - 1];
      RecordReadingsKeys(m, sc, lines, init);
      assert forall q :: q in init ==> q in qs;
    }
  }

  /** The raw counterpart of `RecordReadingsLookup`. */
  lemma {:induction false} RecordRawsLookup(raw: map<string, Reading>, sc: Scanner, lines: seq<string>, qs: seq<Quantity>, q: Quantity)
    ensures var r := RecordRaws(raw, sc, lines, qs);
      if q in qs && FirstReading(sc, q, lines).Some? then
        RawName(q) in r && r[RawName(q)] == FirstReading(sc, q, lines).value
      else
        (RawName(q) in r <==> RawName(q) in raw) && (RawName(q) in raw ==> r[RawName(q)] == raw[RawName(q)])
    decreases |qs|
  {
    if qs != [] {
      var init, last := qs[..|qs| - 1], qs[|qs| - 1];
      assert qs == init + [last];
      RecordRawsLookup(raw, sc, lines, init, q);
      assert RecordRaws(raw, sc, lines, qs) == RecordRaw(RecordRaws(raw, sc, lines, init), sc, lines, last);
      if q != last {
        NamesDistinct(q, last, Timestamp);
        assert q in qs <==> q in init;
      }
    }
  }

  lemma {:induction false} RecordRawsKeys(raw: map<string, Reading>, sc: Scanner, lines: seq<string>, qs: seq<Quantity>)
    ensures RecordRaws(raw, sc, lines, qs).Keys <= raw.Keys + set q | q in qs :: RawName(q)
    decreases |qs|
  {
    if qs != [] {
      var init := qs[..|qs| - 1];
      RecordRawsKeys(raw, sc, lines, init);
      assert forall q :: q in init ==> q in qs;
    }
  }

  /**
   * A reading field. When its pattern matches, `metrics` holds the normalised value under
   * the field's metric name (whatever passthrough lines say) and `raw_metrics` the printed
   * value and unit; when it does not, neither key comes from the field, and the metric name
   * is present only if some passthrough line offers it.
   */
  lemma ReadingRecorded(sc: Scanner, lines: seq<string>, q: Quantity)
    ensures match FirstReading(sc, q, lines)
      case Some(r) =>
        && MetricName(q) in Metrics(sc, lines) && Metrics(sc, lines)[MetricName(q)] == Num(Normalize(q, r))
        && RawName(q) in RawMetrics(sc, lines) && RawMetrics(sc, lines)[RawName(q)] == r
      case None =>
        && RawName(q) !in RawMetrics(sc, lines)
        && MetricName(q) !in Canonical(sc, lines)
        && (MetricName(q) in Metrics(sc, lines) <==> MetricName(q) in PassKeys(EntryOf(sc), lines))
  {
    AllQuantitiesListed(q);
    var texts := RecordText(RecordText(map[], sc, lines, Timestamp), sc, lines, DeviceName);
    NamesDistinct(q, q, Timestamp);
    NamesDistinct(q, q, DeviceName);
    assert MetricName(q) !in texts;
    RecordReadingsLookup(texts, sc, lines, Quantities, q);
    RecordRawsLookup(map[], sc, lines, Quantities, q);
    MergeLookup(Canonical(sc, lines), EntryOf(sc), lines, MetricName(q));
  }

  /** Every key of `raw_metrics` is the raw name of a field whose pattern matched. */
  lemma RawKeysFromFields(sc: Scanner, lines: seq<string>, k: string)
    requires k in RawMetrics(sc, lines)
    ensures exists q :: RawName(q) == k && FirstReading(sc, q, lines).Some?
  {
    RecordRawsKeys(map[], sc, lines, Quantities);
    var q :| q in Quantities && RawName(q) == k;
    RecordRawsLookup(map[], sc, lines, Quantities, q);
  }

  /** A text field: when its pattern matches, `metrics` holds the captured text; when it
      does not, the key is present only if some passthrough line offers it. */
  lemma TextRecorded(sc: Scanner, lines: seq<string>, f: TextField)
    ensures match FirstText(sc, f, lines)
      case Some(s) => TextName(f) in Metrics(sc, lines) && Metrics(sc, lines)[TextName(f)] == Text(s)
      case None =>
        && TextName(f) !in Canonical(sc, lines)
        && (TextName(f) in Metrics(sc, lines) <==> TextName(f) in PassKeys(EntryOf(sc), lines))
  {
    var texts := RecordText(RecordText(map[], sc, lines, Timestamp), sc, lines, DeviceName);
    forall q ensures MetricName(q) != TextName(f) {
      NamesDistinct(q, q, f);
    }
    RecordReadingsKeep(texts, sc, lines, Quantities, TextName(f));
    assert TextName(Timestamp) != TextName(DeviceName);
    MergeLookup(Canonical(sc, lines), EntryOf(sc), lines, TextName(f));
  }

  /** Canonical keys are exactly the names of the fields whose patterns matched. */
  lemma CanonicalKeys(sc: Scanner, lines: seq<string>, k: string)
    requires k in Canonical(sc, lines)
    ensures (exists f :: TextName(f) == k && FirstText(sc, f, lines).Some?)
         || (exists q :: MetricName(q) == k && FirstReading(sc, q, lines).Some?)
  {
    var texts := RecordText(RecordText(map[], sc, lines, Timestamp), sc, lines, DeviceName);
    RecordReadingsKeys(texts, sc, lines, Quantities);
    if k in texts {
      if k == TextName(Timestamp) {
        assert FirstText(sc, Timestamp, lines).Some? || FirstText(sc, DeviceName, lines).Some?;
      }
    } else {
      var q :| q in Quantities && MetricName(q) == k;
      RecordReadingsLookup(texts, sc, lines, Quantities, q);
    }
  }

  /** A matched power field: `metrics` holds its value in mW under `<part>_power_mw`, and
      `raw_metrics` the printed value and unit under `<part>`. */
  lemma PowerFieldRecorded(sc: Scanner, lines: seq<string>, p: Part)
    ensures match FirstReading(sc, Power(p), lines)
      case Some(r) =>
        && PartName(p) + "_power_mw" in Metrics(sc, lines)
        && Metrics(sc, lines)[PartName(p) + "_power_mw"] == Num(NormalizePower(r.value, r.unit))
        && PartName(p) in RawMetrics(sc, lines) && RawMetrics(sc, lines)[PartName(p)] == r
      case None => PartName(p) !in RawMetrics(sc, lines)
  {
    assert MetricName(Power(p)) == PartName(p) + "_power_mw" && RawName(Power(p)) == PartName(p);
    ReadingRecorded(sc, lines, Power(p));
  }

  /** A matched temperature is stored as printed, whatever its unit (no conversion from °F). */
  lemma TemperatureKeptAsPrinted(sc: Scanner, lines: seq<string>)
    ensures match FirstReading(sc, Temperature, lines)
      case Some(r) =>
        && "temperature_c" in Metrics(sc, lines) && Metrics(sc, lines)["temperature_c"] == Num(r.value)
        && "temperature" in RawMetrics(sc, lines) && RawMetrics(sc, lines)["temperature"] == r
      case None => "temperature" !in RawMetrics(sc, lines)
  {
    assert MetricName(Temperature) == "temperature_c" && RawName(Temperature) == "temperature";
    ReadingRecorded(sc, lines, Temperature);
  }

  lemma PassKeysConcat(entry: Entries, a: seq<string>, b: seq<string>)
    ensures PassKeys(entry, a + b) == PassKeys(entry, a) + PassKeys(entry, b)
  {
    var s := a + b;
    forall k | k in PassKeys(entry, s) ensures k in PassKeys(entry, a) + PassKeys(entry, b) {
      var i :| 0 <= i < |s| && entry(s[i]).Some? && entry(s[i]).value.0 == k;
      if i < |a| {
        assert s[i] == a[i];
      } else {
        assert s[i] == b[i - |a|];
      }
    }
    forall k | k in PassKeys(entry, a) + PassKeys(entry, b) ensures k in PassKeys(entry, s) {
      if k in PassKeys(entry, a) {
        var i :| 0 <= i < |a| && entry(a[i]).Some? && entry(a[i]).value.0 == k;
        assert s[i] == a[i];
      } else {
        var i :| 0 <= i < |b| && entry(b[i]).Some? && entry(b[i]).value.0 == k;
        assert s[|a| + i] == b[i];
      }
    }
  }

  lemma PassKeysOne(entry: Entries, l: string)
    ensures PassKeys(entry, [l]) == if entry(l).Some? then {entry(l).value.0} else {}
  {
    assert [l][0] == l;
  }

  /** Appending a line changes a key's first value only when no earlier line offered it. */
  lemma FirstValueAppend(entry: Entries, pre: seq<string>, l: string, k: string)
    ensures FirstValue(entry, pre + [l], k) ==
      if FirstValue(entry, pre, k).Some? then FirstValue(entry, pre, k) else EntryValue(entry, l, k)
  {
    SearchConcat(ValueMatcher(entry, k), pre, [l]);
    assert [l][0] == l;
  }

  /**
   * The merged map, key by key: its keys are those of `canonical` and those some line offers;
   * a key of `canonical` keeps its value, and any other key takes the value of the first line
   * offering it.
   */
  lemma {:induction false} MergeLookup(c: map<string, MetricValue>, entry: Entries, lines: seq<string>, k: string)
    ensures k in Merge(c, entry, lines) <==> k in c || k in PassKeys(entry, lines)
    ensures k in c ==> Merge(c, entry, lines)[k] == c[k]
    ensures k !in c && k in PassKeys(entry, lines) ==>
      FirstValue(entry, lines, k).Some? && Merge(c, entry, lines)[k] == Text(FirstValue(entry, lines, k).value)
  {
    if lines != [] {
      var pre, l := lines[..|lines| - 1], lines[|lines| - 1];
      assert lines == pre + [l];
      MergeLookup(c, entry, pre, k);
      PassKeysConcat(entry, pre, [l]);
      PassKeysOne(entry, l);
      FirstValueAppend(entry, pre, l, k);
      FirstValueFound(entry, pre, k);
      FirstValueFound(entry, lines, k);
    }
  }

  lemma SameMaps<K, V>(a: map<K, V>, b: map<K, V>)
    requires a.Keys == b.Keys
    requires forall k :: k in a ==> a[k] == b[k]
    ensures a == b
  {
  }

  /** A line offering no entry adds nothing to the passthrough entries. */
  lemma SilentLineIgnored(c: map<string, MetricValue>, entry: Entries, a: seq<string>, l: string, b: seq<string>)
    requires entry(l).None?
    ensures Merge(c, entry, a + [l] + b) == Merge(c, entry, a + b)
  {
    var m0, m1 := Merge(c, entry, a + b), Merge(c, entry, a + [l] + b);
    PassKeysConcat(entry, a + [l], b);
    PassKeysConcat(entry, a, [l]);
    PassKeysConcat(entry, a, b);
    PassKeysOne(entry, l);
    forall k ensures (k in m1 <==> k in m0) && (k in m1 ==> m1[k] == m0[k]) {
      MergeLookup(c, entry, a + b, k);
      MergeLookup(c, entry, a + [l] + b, k);
      SearchConcat(ValueMatcher(entry, k), a + [l], b);
      SearchConcat(ValueMatcher(entry, k), a, b);
      FirstValueAppend(entry, a, l, k);
    }
    SameMaps(m1, m0);
  }

  /** A line that is a comment once stripped adds nothing to `metrics` through the passthrough
      pass: the report parses as if the line were not there, apart from the recognised fields. */
  lemma CommentLinesIgnored(c: map<string, MetricValue>, sc: Scanner, a: seq<string>, l: string, b: seq<string>)
    requires StartsWith(Strip(l), "#")
    ensures Merge(c, EntryOf(sc), a + [l] + b) == Merge(c, EntryOf(sc), a + b)
  {
    assert EntryOf(sc)(l).None?;
    SilentLineIgnored(c, EntryOf(sc), a, l, b);
  }

  /**
   * The recognised fields are searched in every line, comment lines included: a comment
   * line carrying a reading still sets that field's key, which the report without the
   * line lacks.
   */
  lemma CommentReadingsRecorded(sc: Scanner, l: string, q: Quantity)
    requires StartsWith(Strip(l), "#") && sc.reading(q, l).Some?
    ensures MetricName(q) in Metrics(sc, [l])
    ensures Metrics(sc, [l])[MetricName(q)] == Num(Normalize(q, sc.reading(q, l).value))
    ensures MetricName(q) !in Metrics(sc, [])
  {
    assert ReadingMatcher(sc, q)(l) == sc.reading(q, l);
    assert FirstReading(sc, q, [l]) == sc.reading(q, l);
    ReadingRecorded(sc, [l], q);
    ReadingRecorded(sc, [], q);
  }

  /** The first line offering a key decides its merged value, unless `canonical` has the key. */
  lemma MergeFirstWins(c: map<string, MetricValue>, entry: Entries, lines: seq<string>, i: nat, k: string, v: string)
    requires i < |lines| && entry(lines[i]) == Some((k, v))
    requires forall j :: 0 <= j < i ==> entry(lines[j]).None? || entry(lines[j]).value.0 != k
    ensures k in Merge(c, entry, lines)
    ensures Merge(c, entry, lines)[k] == if k in c then c[k] else Text(v)
  {
    assert EntryValue(entry, lines[i], k) == Some(v);
    assert forall j :: 0 <= j < i ==> EntryValue(entry, lines[j], k).None?;
    assert FirstIndex(ValueMatcher(entry, k), lines) == i;
    MergeLookup(c, entry, lines, k);
  }

  /** Every merged key missing from `canonical` carries the value of the first line offering it. */
  lemma MergeSource(c: map<string, MetricValue>, entry: Entries, lines: seq<string>, k: string)
    requires k in Merge(c, entry, lines) && k !in c
    ensures exists i :: (0 <= i < |lines| && entry(lines[i]).Some? && entry(lines[i]).value.0 == k
      && Merge(c, entry, lines)[k] == Text(entry(lines[i]).value.1)
      && (forall j :: 0 <= j < i ==> entry(lines[j]).None? || entry(lines[j]).value.0 != k))
  {
    MergeLookup(c, entry, lines, k);
    var i := FirstIndex(ValueMatcher(entry, k), lines);
    assert EntryValue(entry, lines[i], k).Some?;
    assert forall j :: 0 <= j < i ==> EntryValue(entry, lines[j], k).None?;
  }

  /** In a parsed report, the first line offering a key decides its value, unless a recognised
      field had the key. */
  lemma PassthroughFirstWins(sc: Scanner, lines: seq<string>, i: nat, k: string, v: string)
    requires i < |lines| && Entry(sc, lines[i]) == Some((k, v))
    requires forall j :: 0 <= j < i ==> Entry(sc, lines[j]).None? || Entry(sc, lines[j]).value.0 != k
    ensures k in Metrics(sc, lines)
    ensures Metrics(sc, lines)[k] == if k in Canonical(sc, lines) then Canonical(sc, lines)[k] else Text(v)
  {
    MergeFirstWins(Canonical(sc, lines), EntryOf(sc), lines, i, k, v);
  }

  /** Conversely, every passthrough entry of a parsed report is the value of the first line
      offering its key. */
  lemma PassthroughSource(sc: Scanner, lines: seq<string>, k: string)
    requires k in Metrics(sc, lines) && k !in Canonical(sc, lines)
    ensures exists i :: (0 <= i < |lines| && Entry(sc, lines[i]).Some? && Entry(sc, lines[i]).value.0 == k
      && Metrics(sc, lines)[k] == Text(Entry(sc, lines[i]).value.1)
      && (forall j :: 0 <= j < i ==> Entry(sc, lines[j]).None? || Entry(sc, lines[j]).value.0 != k))
  {
    MergeSource(Canonical(sc, lines), EntryOf(sc), lines, k);
  }

  /** Recording the fields of `qs` one more field at a time. */
  lemma RecordStep(m: map<string, MetricValue>, raw: map<string, Reading>, sc: Scanner, lines: seq<string>, qs: seq<Quantity>, k: nat)
    requires k < |qs|
    ensures RecordReadings(m, sc, lines, qs[..k + 1]) == RecordReading(RecordReadings(m, sc, lines, qs[..k]), sc, lines, qs[k])
    ensures RecordRaws(raw, sc, lines, qs[..k + 1]) == RecordRaw(RecordRaws(raw, sc, lines, qs[..k]), sc, lines, qs[k])
  {
    assert qs[..k + 1][..k] == qs[..k];
  }

  lemma RecordAll(m: map<string, MetricValue>, raw: map<string, Reading>, sc: Scanner, lines: seq<string>, qs: seq<Quantity>)
    ensures RecordReadings(m, sc, lines, qs[..|qs|]) == RecordReadings(m, sc, lines, qs)
    ensures RecordRaws(raw, sc, lines, qs[..|qs|]) == RecordRaws(raw, sc, lines, qs)
  {
    assert qs[..|qs|] == qs;
  }

  lemma PowerQuantity(i: nat)
    requires i < |PowerParts|
    ensures Quantities[i] == Power(PowerParts[i])
  {
  }

  /** One recognised text field: its first match, if any, stored under its key. */
  method RecordTextField(metrics: map<string, MetricValue>, sc: Scanner, lines: seq<string>, f: TextField)
    returns (metrics': map<string, MetricValue>)
    ensures metrics' == RecordText(metrics, sc, lines, f)
  {
    metrics' := metrics;
    var found := FirstText(sc, f, lines);
    if found.Some? {
      metrics' := metrics'[TextName(f) := Text(found.value)];
    }
  }

  /** One recognised reading field: its first match, if any, stored normalised in `metrics` and
      as printed in `raw`. */
  method RecordField(metrics: map<string, MetricValue>, raw: map<string, Reading>, sc: Scanner, lines: seq<string>, q: Quantity)
    returns (metrics': map<string, MetricValue>, raw': map<string, Reading>)
    ensures metrics' == RecordReading(metrics, sc, lines, q)
    ensures raw' == RecordRaw(raw, sc, lines, q)
  {
    metrics', raw' := metrics, raw;
    var found := FirstReading(sc, q, lines);
    if found.Some? {
      var value, unit := found.value.value, found.value.unit;
      metrics' := metrics'[MetricName(q) := Num(Normalize(q, found.value))];
      raw' := raw'[RawName(q) := Reading(value, unit)];
    }
  }

  /** The recognised fields of `_parse_content`: timestamp and device name, the power fields in
      turn, then frequency, voltage, temperature and duration. */
  method ReadFields(sc: Scanner, lines: seq<string>) returns (metrics: map<string, MetricValue>, raw: map<string, Reading>)
    ensures metrics == Canonical(sc, lines)
    ensures raw == RawMetrics(sc, lines)
  {
    metrics, raw := map[], map[];
    metrics := RecordTextField(metrics, sc, lines, Timestamp);
    metrics := RecordTextField(metrics, sc, lines, DeviceName);
    ghost var texts := metrics;

    for i := 0 to |PowerParts|
      invariant metrics == RecordReadings(texts, sc, lines, Quantities[..i])
      invariant raw == RecordRaws(map[], sc, lines, Quantities[..i])
    {
      metrics, raw := RecordField(metrics, raw, sc, lines, Power(PowerParts[i]));
      PowerQuantity(i);
      RecordStep(texts, map[], sc, lines, Quantities, i);
    }
    metrics, raw := RecordField(metrics, raw, sc, lines, Frequency);
    RecordStep(texts, map[], sc, lines, Quantities, 5);
    metrics, raw := RecordField(metrics, raw, sc, lines, Voltage);
    RecordStep(texts, map[], sc, lines, Quantities, 6);
    metrics, raw := RecordField(metrics, raw, sc, lines, Temperature);
    RecordStep(texts, map[], sc, lines, Quantities, 7);
    metrics, raw := RecordField(metrics, raw, sc, lines, Duration);
    RecordStep(texts, map[], sc, lines, Quantities, 8);
    RecordAll(texts, map[], sc, lines, Quantities);
  }

  /** The passthrough pass of `_parse_content`: every non-comment `label: value` line adds its
      normalised key unless the key is already present. */
  method AddPassthrough(canonical: map<string, MetricValue>, sc: Scanner, lines: seq<string>) returns (metrics: map<string, MetricValue>)
    ensures metrics == Merge(canonical, EntryOf(sc), lines)
  {
    metrics := canonical;
    assert Merge(canonical, EntryOf(sc), lines[..0]) == canonical;
    for i := 0 to |lines|
      invariant metrics == Merge(canonical, EntryOf(sc), lines[..i])
    {
      var line := Strip(lines[i]);
      var matched := sc.metricLine(line);
      if matched.Some? && !StartsWith(line, "#") {
        var key := MetricKey(matched.value.0);
        var value := Strip(matched.value.1);
        if key !in metrics {
          metrics := metrics[key := Text(value)];
        }
      }
      assert lines[..i + 1][..i] == lines[..i] && lines[..i + 1][i] == lines[i];
      assert EntryOf(sc)(lines[i]) == Entry(sc, lines[i]);
    }
    assert lines[..|lines|] == lines;
  }

  /**
   * `_parse_content`: the recognised fields first (timestamp, device, the five power fields,
   * frequency, voltage, temperature, duration), then one pass over the lines adding each
   * passthrough entry whose key is not present yet.
   */
  method ParseContent(sc: Scanner, content: string, filename: string, parsedAt: string) returns (data: ParsedReport)
    ensures data.filename == filename && data.parsedTimestamp == parsedAt
    ensures data.metrics == Metrics(sc, Split(content, '\n'))
    ensures data.rawMetrics == RawMetrics(sc, Split(content, '\n'))
  {
    var lines := Split(content, '\n');
    var canonical, raw := ReadFields(sc, lines);
    var metrics := AddPassthrough(canonical, sc, lines);
    data := ParsedReport(filename, parsedAt, metrics, raw);
  }

  /** `is_valid_report_file`: the path ends in `.report.avgpwr`. */
  predicate IsValidReportFile(path: string) {
    EndsWith(path, ".report.avgpwr")
  }

  lemma ValidReportFiles(path: string, prefix: string)
    ensures IsValidReportFile(prefix + ".report.avgpwr")
    ensures IsValidReportFile(path) ==> path == path[..|path| - 14] + ".report.avgpwr"
  {
    assert (prefix + ".report.avgpwr")[|prefix|..] == ".report.avgpwr";
  }

  /**
   * `parse_file`: a path without the report suffix gives None whatever the file holds;
   * otherwise `contents` is what reading the file gave (None when it could not be read),
   * and a file that was read is parsed.
   */
  method ParseFile(sc: Scanner, path: string, contents: Option<string>, parsedAt: string) returns (r: Option<ParsedReport>)
    ensures r.Some? <==> IsValidReportFile(path) && contents.Some?
    ensures r.Some? ==> r.value == ParsedReport(path, parsedAt,
      Metrics(sc, Split(contents.value, '\n')), RawMetrics(sc, Split(contents.value, '\n')))
  {
    if !IsValidReportFile(path) {
      return None;
    }
    if contents.None? {
      return None;
    }
    var data := ParseContent(sc, contents.value, path, parsedAt);
    r := Some(data);
  }
}
