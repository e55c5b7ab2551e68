/**
 * The power distribution sensors: the load output of the charger, its current
 * in amperes, its power in watts and its on/off state, each computed afresh
 * from the charger's readings at every coordinator update.
 */
module PowerDistribution {
  import opened Wrappers
  import opened Decimals

  /** The load current in mA as amperes, rounded to milliamperes. */
  function LoadAmps(loadCurrent: real): (a: real)
    ensures OnGrid(a, Thousandth)
    ensures -0.0005 <= a - loadCurrent * 0.001 <= 0.0005
    ensures loadCurrent >= 0.0 ==> a >= 0.0
  {
    var x := loadCurrent * 0.001;
    QuantizeError(x, Thousandth);
    QuantizeSign(x, Thousandth);
    Quantize(x, Thousandth)
  }

  /** A whole number of milliamperes is shown exactly. */
  lemma WholeMilliamps(k: int)
    ensures LoadAmps(k as real) == k as real * 0.001
  {
    QuantizeThousandths(k);
  }

  /** The battery voltage in mV as volts times the load current in mA as amperes, rounded to milliwatts. */
  function LoadWatts(batteryVoltage: real, loadCurrent: real): (w: real)
    ensures OnGrid(w, Thousandth)
    ensures -0.0005 <= w - (batteryVoltage * 0.001) * (loadCurrent * 0.001) <= 0.0005
    ensures batteryVoltage >= 0.0 && loadCurrent >= 0.0 ==> w >= 0.0
  {
    var x := (batteryVoltage * 0.001) * (loadCurrent * 0.001);
    QuantizeError(x, Thousandth);
    QuantizeSign(x, Thousandth);
    Quantize(x, Thousandth)
  }

  /** No load current, no load power, whatever the battery voltage. */
  lemma NoCurrentNoPower(batteryVoltage: real)
    ensures LoadAmps(0.0) == 0.0 && LoadWatts(batteryVoltage, 0.0) == 0.0
  {
    QuantizeZero(Thousandth);
  }

  /** The load current sensor, given the charger's `load_current` string; a string that is not a numeral raises. */
  function LoadCurrent(loadCurrent: string): (r: Result<real, ConversionError>)
    ensures r.Success? <==> ParseDecimal(loadCurrent).Some?
    ensures r.Failure? ==> r.error == InvalidOperation
    ensures r.Success? ==> r.value == LoadAmps(ParseDecimal(loadCurrent).value)
  {
    match ParseDecimal(loadCurrent)
    case None => Failure(InvalidOperation)
    case Some(i) => Success(LoadAmps(i))
  }

  /** The load power sensor, given the `battery_voltage` and `load_current` strings; either one not a numeral raises. */
  function LoadPower(batteryVoltage: string, loadCurrent: string): (r: Result<real, ConversionError>)
    ensures r.Success? <==> ParseDecimal(batteryVoltage).Some? && ParseDecimal(loadCurrent).Some?
    ensures r.Failure? ==> r.error == InvalidOperation
    ensures r.Success? ==> r.value == LoadWatts(ParseDecimal(batteryVoltage).value, ParseDecimal(loadCurrent).value)
  {
    var v, i := ParseDecimal(batteryVoltage), ParseDecimal(loadCurrent);
    if v.None? || i.None? then Failure(InvalidOperation)
    else Success(LoadWatts(v.value, i.value))
  }

  /**
   * The load state sensor, given the `battery_current` and `load_state`
   * strings: the current is parsed, so a current that is not a numeral
   * raises, and otherwise the load is on exactly when its state reads "ON".
   */
  function LoadState(batteryCurrent: string, loadState: string): (r: Result<bool, ConversionError>)
    ensures r.Success? <==> ParseDecimal(batteryCurrent).Some?
    ensures r.Failure? ==> r.error == InvalidOperation
    ensures r.Success? ==> (r.value <==> loadState == "ON")
  {
    match ParseDecimal(batteryCurrent)
    case None => Failure(InvalidOperation)
    case Some(_) => Success(loadState == "ON")
  }

  /** The parsed battery current never changes the state shown: any two numerals give the same answer. */
  lemma LoadStateIgnoresCurrent(a: string, b: string, loadState: string)
    requires ParseDecimal(a).Some? && ParseDecimal(b).Some?
    ensures LoadState(a, loadState) == LoadState(b, loadState)
  {
  }

  /** "OFF", "on" and the empty string all show the load as off. */
  lemma LoadStateExamples(batteryCurrent: string)
    requires ParseDecimal(batteryCurrent).Some?
    ensures LoadState(batteryCurrent, "ON") == Success(true)
    ensures LoadState(batteryCurrent, "OFF") == Success(false)
    ensures LoadState(batteryCurrent, "on") == Success(false)
    ensures LoadState(batteryCurrent, "") == Success(false)
  {
  }

  /** `unique_id` of the three sensors: the entry id, then "pwdist", then "LI", "LP" or "LS". */
  function LoadCurrentId(entryId: string): string { entryId + "pwdist" + "LI" }
  function LoadPowerId(entryId: string): string { entryId + "pwdist" + "LP" }
  function LoadStateId(entryId: string): string { entryId + "pwdist" + "LS" }

  /** Within one entry the three sensors have distinct ids. */
  lemma UniqueIdsDistinct(entryId: string)
    ensures LoadCurrentId(entryId) != LoadPowerId(entryId)
    ensures LoadCurrentId(entryId) != LoadStateId(entryId)
    ensures LoadPowerId(entryId) != LoadStateId(entryId)
  {
    var n := |entryId| + 7;
    assert LoadCurrentId(entryId)[n] == 'I' && LoadPowerId(entryId)[n] == 'P' && LoadStateId(entryId)[n] == 'S';
  }
}
