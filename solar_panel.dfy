/**
 * The solar panel coordinator: the panel voltage, power, yield of the day and
 * maximum power of the day, set from VE.Direct strings or Decimals, read back
 * rounded to thousandths, and the panel current derived from power and
 * voltage.
 */
module SolarPanel {
  import opened Wrappers
  import opened Decimals

  class SolarPanelCoordinator {
    /** `_voltage`, in volts. */
    var voltage: real
    /** `_power`, in watts. */
    var power: real
    /** `_yield_today`, in kWh. */
    var yieldToday: real
    /** `_max_power_today`, in watts. */
    var maxPowerToday: real

    /** All four fields start at zero. */
    constructor ()
      ensures voltage == 0.0 && power == 0.0 && yieldToday == 0.0 && maxPowerToday == 0.0
    {
      voltage, power, yieldToday, maxPowerToday := 0.0, 0.0, 0.0, 0.0;
    }

    /** The `voltage` getter. */
    function Voltage(): (v: real)
      reads this
      ensures OnGrid(v, Thousandth) && -0.0005 <= v - voltage <= 0.0005
    {
      Quantize(voltage, Thousandth)
    }

    /** The `power` getter. */
    function Power(): (w: real)
      reads this
      ensures OnGrid(w, Thousandth) && -0.0005 <= w - power <= 0.0005
    {
      Quantize(power, Thousandth)
    }

    /** The `yield_today` getter. */
    function YieldToday(): (e: real)
      reads this
      ensures OnGrid(e, Thousandth) && -0.0005 <= e - yieldToday <= 0.0005
    {
      Quantize(yieldToday, Thousandth)
    }

    /** The `max_power_today` getter. */
    function MaxPowerToday(): (w: real)
      reads this
      ensures OnGrid(w, Thousandth) && -0.0005 <= w - maxPowerToday <= 0.0005
    {
      Quantize(maxPowerToday, Thousandth)
    }

    /**
     * `current`: power over voltage, rounded to milliamperes, while the
     * voltage is positive; zero otherwise, so there is no division by zero.
     */
    function Current(): (i: real)
      reads this
      ensures voltage <= 0.0 ==> i == 0.0
      ensures voltage > 0.0 ==> OnGrid(i, Thousandth) && -0.0005 <= i - power / voltage <= 0.0005
    {
      if voltage > 0.0 then Quantize(power / voltage, Thousandth) else 0.0
    }

    /** The `voltage` setter: a string in millivolts is scaled to volts. */
    method SetVoltage(value: PyValue) returns (err: Option<ConversionError>)
      modifies this
      ensures Convert(value, 0.001).Success? ==> err.None? && voltage == Convert(value, 0.001).value
      ensures value.Str? && ParseDecimal(value.s).Some? ==> voltage == ParseDecimal(value.s).value * 0.001
      ensures value.Dec? ==> voltage == value.d
      ensures Convert(value, 0.001).Failure? ==> err == Some(Convert(value, 0.001).error) && voltage == old(voltage)
      ensures power == old(power) && yieldToday == old(yieldToday) && maxPowerToday == old(maxPowerToday)
    {
      if value.Str? && ParseDecimal(value.s).Some? {
        ConvertScales(value.s);
      }
      match Convert(value, 0.001)
      case Success(v) =>
        voltage := v;
        err := None;
      case Failure(e) =>
        err := Some(e);
    }

    /** The `power` setter: a string in watts is stored unscaled. */
    method SetPower(value: PyValue) returns (err: Option<ConversionError>)
      modifies this
      ensures Convert(value, 1.0).Success? ==> err.None? && power == Convert(value, 1.0).value
      ensures value.Str? && ParseDecimal(value.s).Some? ==> power == ParseDecimal(value.s).value
      ensures value.Dec? ==> power == value.d
      ensures Convert(value, 1.0).Failure? ==> err == Some(Convert(value, 1.0).error) && power == old(power)
      ensures voltage == old(voltage) && yieldToday == old(yieldToday) && maxPowerToday == old(maxPowerToday)
    {
      if value.Str? && ParseDecimal(value.s).Some? {
        ConvertScales(value.s);
      }
      match Convert(value, 1.0)
      case Success(w) =>
        power := w;
        err := None;
      case Failure(e) =>
        err := Some(e);
    }

    /**
     * The `yield_today` setter as written: the value, a string scaled from
     * hundredths of a kWh, lands in `_power`, and `_yield_today` is never written.
     */
    method SetYieldToday(value: PyValue) returns (err: Option<ConversionError>)
      modifies this
      ensures Convert(value, 0.01).Success? ==> err.None? && power == Convert(value, 0.01).value
      ensures value.Str? && ParseDecimal(value.s).Some? ==> power == ParseDecimal(value.s).value * 0.01
      ensures value.Dec? ==> power == value.d
      ensures Convert(value, 0.01).Failure? ==> err == Some(Convert(value, 0.01).error) && power == old(power)
      ensures voltage == old(voltage) && yieldToday == old(yieldToday) && maxPowerToday == old(maxPowerToday)
    {
      if value.Str? && ParseDecimal(value.s).Some? {
        ConvertScales(value.s);
      }
      match Convert(value, 0.01)
      case Success(e) =>
        power := e;
        err := None;
      case Failure(e) =>
        err := Some(e);
    }

    /** The `yield_today` setter as intended: the scaled yield lands in `_yield_today`. */
    method SetYieldTodayIntended(value: PyValue) returns (err: Option<ConversionError>)
      modifies this
      ensures Convert(value, 0.01).Success? ==> err.None? && yieldToday == Convert(value, 0.01).value
      ensures value.Str? && ParseDecimal(value.s).Some? ==> yieldToday == ParseDecimal(value.s).value * 0.01
      ensures value.Dec? ==> yieldToday == value.d
      ensures Convert(value, 0.01).Failure? ==> err == Some(Convert(value, 0.01).error) && yieldToday == old(yieldToday)
      ensures voltage == old(voltage) && power == old(power) && maxPowerToday == old(maxPowerToday)
    {
      if value.Str? && ParseDecimal(value.s).Some? {
        ConvertScales(value.s);
      }
      match Convert(value, 0.01)
      case Success(e) =>
        yieldToday := e;
        err := None;
      case Failure(e) =>
        err := Some(e);
    }

    /** The `max_power_today` setter: a string in watts is stored unscaled. */
    method SetMaxPowerToday(value: PyValue) returns (err: Option<ConversionError>)
      modifies this
      ensures Convert(value, 1.0).Success? ==> err.None? && maxPowerToday == Convert(value, 1.0).value
      ensures value.Str? && ParseDecimal(value.s).Some? ==> maxPowerToday == ParseDecimal(value.s).value
      ensures value.Dec? ==> maxPowerToday == value.d
      ensures Convert(value, 1.0).Failure? ==> err == Some(Convert(value, 1.0).error) && maxPowerToday == old(maxPowerToday)
      ensures voltage == old(voltage) && power == old(power) && yieldToday == old(yieldToday)
    {
      if value.Str? && ParseDecimal(value.s).Some? {
        ConvertScales(value.s);
      }
      match Convert(value, 1.0)
      case Success(w) =>
        maxPowerToday := w;
        err := None;
      case Failure(e) =>
        err := Some(e);
    }
  }

  /** Without a positive voltage the current reads zero whatever the power. */
  lemma NoCurrentWithoutVoltage(p: SolarPanelCoordinator)
    requires p.voltage <= 0.0
    ensures p.Current() == 0.0
  {
  }

  /** A non-negative power at a positive voltage never reads as a negative current. */
  lemma CurrentNonNegative(p: SolarPanelCoordinator)
    requires p.voltage > 0.0 && p.power >= 0.0
    ensures p.Current() >= 0.0
  {
    assert p.power / p.voltage >= 0.0;
    QuantizeSign(p.power / p.voltage, Thousandth);
  }

  /** At a positive voltage, current times voltage gives back the power up to the rounding of the current. */
  lemma CurrentTimesVoltage(p: SolarPanelCoordinator)
    requires p.voltage > 0.0
    ensures -0.0005 * p.voltage <= p.Current() * p.voltage - p.power <= 0.0005 * p.voltage
  {
    var d := p.Current() - p.power / p.voltage;
    assert -0.0005 <= d <= 0.0005;
    assert p.Current() * p.voltage - p.power == d * p.voltage;
    assert -0.0005 * p.voltage <= d * p.voltage <= 0.0005 * p.voltage;
  }

  /**
   * Setting the yield of the day as written, from a VE.Direct `H20` reading
   * (hundredths of a kWh): the yield shown stays 0.000 while the power shown
   * becomes the yield in kWh.
   */
  method YieldTodayAsWritten(reading: string) returns (yieldShown: real, powerShown: real)
    requires ParseDecimal(reading).Some?
    ensures yieldShown == 0.0
    ensures powerShown == Quantize(ParseDecimal(reading).value * 0.01, Thousandth)
  {
    var p := new SolarPanelCoordinator();
    var _ := p.SetYieldToday(Str(reading));
    assert Convert(Str(reading), 0.01) == Success(ParseDecimal(reading).value * 0.01);
    assert p.power == ParseDecimal(reading).value * 0.01 && p.yieldToday == 0.0;
    QuantizeZero(Thousandth);
    yieldShown, powerShown := p.YieldToday(), p.Power();
  }

  /** Set as intended, the same reading is shown as the yield and the power stays 0.000. */
  method YieldTodayIntended(reading: string) returns (yieldShown: real, powerShown: real)
    requires ParseDecimal(reading).Some?
    ensures yieldShown == Quantize(ParseDecimal(reading).value * 0.01, Thousandth)
    ensures powerShown == 0.0
    ensures ParseDecimal(reading).value >= 0.0 ==> yieldShown >= 0.0
  {
    var p := new SolarPanelCoordinator();
    var _ := p.SetYieldTodayIntended(Str(reading));
    assert Convert(Str(reading), 0.01) == Success(ParseDecimal(reading).value * 0.01);
    assert p.yieldToday == ParseDecimal(reading).value * 0.01 && p.power == 0.0;
    QuantizeZero(Thousandth);
    QuantizeSign(p.yieldToday, Thousandth);
    yieldShown, powerShown := p.YieldToday(), p.Power();
  }
}
