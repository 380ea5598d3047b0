/**
 * A report whose passthrough line names a numeric metric. The line `cpu_power_mw: high` is
 * not a `CPU Power:` reading, so the passthrough pass stores the text `high` under the key
 * the CPU card reads. The generator as written then raises while formatting that card; the
 * generator of this model shows the card as if the metric were absent.
 */
module Findings {
  import opened Wrappers
  import opened PyText
  import opened ReportParser
  import opened Dashboard

  /** Patterns that match nothing but the passthrough line `cpu_power_mw: high`. */
  function OnlyPassthrough(): Scanner {
    Scanner((f, l) => None, (q, l) => None,
      l => if l == "cpu_power_mw: high" then Some(("cpu_power_mw", "high")) else None)
  }

  lemma ContentIsOneLine()
    ensures Split("cpu_power_mw: high", '\n') == ["cpu_power_mw: high"]
  {
    SplitPiece("cpu_power_mw: high", [], '\n');
  }

  lemma LabelIsKey()
    ensures MetricKey("cpu_power_mw") == "cpu_power_mw"
  {
    LowerNoUpper("cpu_power_mw");
    ReplaceAbsent("cpu_power_mw", ' ', '_');
  }

  lemma LineIsEntry()
    ensures Entry(OnlyPassthrough(), "cpu_power_mw: high") == Some(("cpu_power_mw", "high"))
  {
    StripUnpadded("cpu_power_mw: high");
    StripUnpadded("high");
    LabelIsKey();
  }

  /** No reading pattern matches, so `cpu_power_mw` is not a recognised field's key. */
  lemma CpuNotRecognised()
    ensures "cpu_power_mw" !in Canonical(OnlyPassthrough(), ["cpu_power_mw: high"])
  {
    var sc, lines := OnlyPassthrough(), ["cpu_power_mw: high"];
    assert ReadingMatcher(sc, Power(Cpu))(lines[0]).None?;
    assert FirstReading(sc, Power(Cpu), lines).None?;
    assert MetricName(Power(Cpu)) == "cpu_power_mw";
    ReadingRecorded(sc, lines, Power(Cpu));
  }

  /** As written: the parsed report holds text under `cpu_power_mw`, and the CPU card cannot
      be formatted. */
  lemma TextUnderNumericKey()
    ensures var m := Metrics(OnlyPassthrough(), Split("cpu_power_mw: high", '\n'));
      && "cpu_power_mw" in m && m["cpu_power_mw"] == Text("high")
      && CardValueAsWritten(m, "cpu_power_mw").Failure?
  {
    var sc, lines := OnlyPassthrough(), ["cpu_power_mw: high"];
    ContentIsOneLine();
    LineIsEntry();
    CpuNotRecognised();
    PassthroughFirstWins(sc, lines, 0, "cpu_power_mw", "high");
  }

  /** Corrected: the same report gets a dashboard whose CPU card and bar show 0, as for a
      report without the line. */
  lemma TextShownAsAbsent()
    ensures var m := Metrics(OnlyPassthrough(), Split("cpu_power_mw: high", '\n'));
      && ViewOf(m).cpu == 0.0
      && ViewOf(m).cpu == ViewOf(map[]).cpu
      && BarOf(Cpu, ViewOf(m).cpu, ViewOf(m).total).percentage == 0.0
  {
    TextUnderNumericKey();
  }
}
