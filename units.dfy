/**
 * The unit normalisers of the power-report parser. Each takes a value and the unit token
 * the report printed after it, lower-cases the token, and converts to one canonical unit:
 * power to mW, frequency to MHz, voltage to V, duration to ms. A token that is not
 * recognised is taken to be in the canonical unit already. Values are exact reals.
 */
module Units {
  import opened PyText

  /** 'µ', U+00B5 MICRO SIGN, the character the report patterns use. */
  const Micro: char := '\U{B5}'

  function NormalizePower(value: real, unit: string): (mw: real) {
    var u := Lower(unit);
    if u == "w" then value * 1000.0
    else if u == [Micro, 'w'] then value / 1000.0
    else value
  }

  function NormalizeFrequency(value: real, unit: string): (mhz: real) {
    var u := Lower(unit);
    if u == "ghz" then value * 1000.0
    else if u == "khz" then value / 1000.0
    else value
  }

  function NormalizeVoltage(value: real, unit: string): (v: real) {
    if Lower(unit) == "mv" then value / 1000.0 else value
  }

  function NormalizeDuration(value: real, unit: string): (ms: real) {
    var u := Lower(unit);
    if u == "s" then value * 1000.0
    else if u == [Micro, 's'] then value / 1000.0
    else value
  }

  /** Back from mW to `unit`: the inverse of `NormalizePower` for the same token. */
  function PowerInUnit(mw: real, unit: string): real {
    var u := Lower(unit);
    if u == "w" then mw / 1000.0
    else if u == [Micro, 'w'] then mw * 1000.0
    else mw
  }

  function FrequencyInUnit(mhz: real, unit: string): real {
    var u := Lower(unit);
    if u == "ghz" then mhz / 1000.0
    else if u == "khz" then mhz * 1000.0
    else mhz
  }

  function VoltageInUnit(v: real, unit: string): real {
    if Lower(unit) == "mv" then v * 1000.0 else v
  }

  function DurationInUnit(ms: real, unit: string): real {
    var u := Lower(unit);
    if u == "s" then ms / 1000.0
    else if u == [Micro, 's'] then ms * 1000.0
    else ms
  }

  /** Normalising and converting back are inverse, in both orders, for every token. */
  lemma RoundTrips(x: real, unit: string)
    ensures PowerInUnit(NormalizePower(x, unit), unit) == x
    ensures NormalizePower(PowerInUnit(x, unit), unit) == x
    ensures FrequencyInUnit(NormalizeFrequency(x, unit), unit) == x
    ensures NormalizeFrequency(FrequencyInUnit(x, unit), unit) == x
    ensures VoltageInUnit(NormalizeVoltage(x, unit), unit) == x
    ensures NormalizeVoltage(VoltageInUnit(x, unit), unit) == x
    ensures DurationInUnit(NormalizeDuration(x, unit), unit) == x
    ensures NormalizeDuration(DurationInUnit(x, unit), unit) == x
  {
  }

  /** The token's case never matters: a token and its lower-cased form convert alike. */
  lemma CaseInsensitive(value: real, unit: string)
    ensures NormalizePower(value, unit) == NormalizePower(value, Lower(unit))
    ensures NormalizeFrequency(value, unit) == NormalizeFrequency(value, Lower(unit))
    ensures NormalizeVoltage(value, unit) == NormalizeVoltage(value, Lower(unit))
    ensures NormalizeDuration(value, unit) == NormalizeDuration(value, Lower(unit))
  {
    LowerIdempotent(unit);
  }

  /** Every normaliser preserves order, so comparing normalised values compares quantities. */
  lemma Monotone(a: real, b: real, unit: string)
    requires a <= b
    ensures NormalizePower(a, unit) <= NormalizePower(b, unit)
    ensures NormalizeFrequency(a, unit) <= NormalizeFrequency(b, unit)
    ensures NormalizeVoltage(a, unit) <= NormalizeVoltage(b, unit)
    ensures NormalizeDuration(a, unit) <= NormalizeDuration(b, unit)
  {
  }

  /**
   * Power tokens the pattern `(mW|W|µW)` accepts, in any letter case: watts are
   * multiplied by 1000, microwatts divided by 1000, and every spelling of "mW",
   * "MW" included, left as it is.
   */
  lemma PowerTokens(v: real)
    ensures NormalizePower(v, "W") == NormalizePower(v, "w") == v * 1000.0
    ensures NormalizePower(v, [Micro, 'W']) == NormalizePower(v, [Micro, 'w']) == v / 1000.0
    ensures NormalizePower(v, "mW") == NormalizePower(v, "mw") == v
    ensures NormalizePower(v, "MW") == NormalizePower(v, "Mw") == v
  {
    assert Lower("W") == "w";
    assert Lower([Micro, 'W']) == [Micro, 'w'];
    assert Lower("MW") == "mw" && Lower("mW") == "mw";
    assert "mw"[0] != [Micro, 'w'][0];
  }

  /** Frequency tokens `(MHz|GHz|KHz)`: GHz times 1000, kHz divided by 1000, MHz as is. */
  lemma FrequencyTokens(v: real)
    ensures NormalizeFrequency(v, "GHz") == NormalizeFrequency(v, "ghz") == v * 1000.0
    ensures NormalizeFrequency(v, "KHz") == NormalizeFrequency(v, "kHz") == v / 1000.0
    ensures NormalizeFrequency(v, "MHz") == NormalizeFrequency(v, "mhz") == v
  {
    assert Lower("GHz") == "ghz";
    assert Lower("KHz") == "khz";
    assert Lower("kHz") == "khz";
  }

  /** Voltage tokens `(V|mV)`: millivolts divided by 1000, volts as is. */
  lemma VoltageTokens(v: real)
    ensures NormalizeVoltage(v, "mV") == NormalizeVoltage(v, "MV") == v / 1000.0
    ensures NormalizeVoltage(v, "V") == NormalizeVoltage(v, "v") == v
  {
    assert Lower("mV") == "mv";
    assert Lower("MV") == "mv";
  }

  /** Duration tokens `(s|ms|µs)`: seconds times 1000, microseconds divided by 1000, ms as is. */
  lemma DurationTokens(v: real)
    ensures NormalizeDuration(v, "s") == NormalizeDuration(v, "S") == v * 1000.0
    ensures NormalizeDuration(v, [Micro, 's']) == NormalizeDuration(v, [Micro, 'S']) == v / 1000.0
    ensures NormalizeDuration(v, "ms") == NormalizeDuration(v, "MS") == v
  {
    assert Lower("S") == "s";
    assert Lower([Micro, 'S']) == [Micro, 's'];
    assert Lower("MS") == "ms";
  }

  /** One quantity written in any recognised unit normalises to the same canonical value. */
  lemma UnitsAgree(x: real)
    ensures NormalizePower(x, "W") == NormalizePower(x * 1000.0, "mW") == NormalizePower(x * 1000000.0, [Micro, 'W'])
    ensures NormalizeFrequency(x, "GHz") == NormalizeFrequency(x * 1000.0, "MHz") == NormalizeFrequency(x * 1000000.0, "KHz")
    ensures NormalizeVoltage(x, "V") == NormalizeVoltage(x * 1000.0, "mV")
    ensures NormalizeDuration(x, "s") == NormalizeDuration(x * 1000.0, "ms") == NormalizeDuration(x * 1000000.0, [Micro, 's'])
  {
    PowerTokens(x);
    PowerTokens(x * 1000.0);
    PowerTokens(x * 1000000.0);
    FrequencyTokens(x);
    FrequencyTokens(x * 1000.0);
    FrequencyTokens(x * 1000000.0);
    VoltageTokens(x);
    VoltageTokens(x * 1000.0);
    DurationTokens(x);
    DurationTokens(x * 1000.0);
    DurationTokens(x * 1000000.0);
  }
}
