/**
 * The battery coordinator: the last battery voltage and current, set from
 * VE.Direct strings or Decimals, and the values the battery sensors derive
 * from them: rounded readings, power, the charging flag, the in/out power
 * split and the charge percentage interpolated over a table of voltages.
 */
module Battery {
  import opened Wrappers
  import opened Decimals
  import opened Interpolation

  /** `_data` of `per_cent`: volts against per cent, 20 % per volt from 9 V. */
  const PerCentTable: seq<Point> :=
    [(9.0, 0.0), (10.0, 20.0), (11.0, 40.0), (12.0, 60.0), (13.0, 80.0), (14.0, 100.0), (15.0, 120.0)]

  lemma PerCentTableFacts()
    ensures |PerCentTable| == 7
    ensures Increasing(PerCentTable) && OnLine(PerCentTable, 20.0, -180.0)
    ensures PerCentTable[0].0 == 9.0 && PerCentTable[6].0 == 15.0
  {
  }

  /**
   * The charge percentage of a voltage: the table's line rounded to tenths
   * from 9 V to 15 V inclusive, and 0 outside that range (no clamp at 15 V).
   */
  function ChargePercent(v: real): real
  {
    if 9.0 <= v <= 15.0 then Quantize(20.0 * (v - 9.0), Tenth) else 0.0
  }

  class BatteryCoordinator {
    /** `_voltage`, in volts. */
    var voltage: real
    /** `_current`, in amperes; positive while charging. */
    var current: real

    /** A new coordinator holds zero volts and zero amperes, so it is not charging. */
    constructor ()
      ensures voltage == 0.0 && current == 0.0
      ensures !IsCharging()
    {
      voltage := 0.0;
      current := 0.0;
    }

    /** The `voltage` getter: a whole number of millivolts, at most half a millivolt off. */
    function Voltage(): (v: real)
      reads this
      ensures OnGrid(v, Thousandth)
      ensures -0.0005 <= v - voltage <= 0.0005
    {
      Quantize(voltage, Thousandth)
    }

    /** The `current` getter: a whole number of milliamperes, at most half a milliampere off. */
    function Current(): (i: real)
      reads this
      ensures OnGrid(i, Thousandth)
      ensures -0.0005 <= i - current <= 0.0005
    {
      Quantize(current, Thousandth)
    }

    /** `power`: the product of the stored (unrounded) voltage and current, rounded to milliwatts. */
    function Power(): (w: real)
      reads this
      ensures OnGrid(w, Thousandth)
      ensures -0.0005 <= w - voltage * current <= 0.0005
    {
      Quantize(voltage * current, Thousandth)
    }

    /** `is_charging`. */
    predicate IsCharging()
      reads this
    {
      current > 0.0
    }

    /**
     * The `voltage` setter as written: a string is stored as the number it
     * spells, without the millivolt scaling its comment announces.
     */
    method SetVoltage(value: PyValue) returns (err: Option<ConversionError>)
      modifies this
      ensures Convert(value, 1.0).Success? ==> err.None? && voltage == Convert(value, 1.0).value
      ensures value.Str? && ParseDecimal(value.s).Some? ==> voltage == ParseDecimal(value.s).value
      ensures value.Dec? ==> voltage == value.d
      ensures Convert(value, 1.0).Failure? ==> err == Some(Convert(value, 1.0).error) && voltage == old(voltage)
      ensures current == old(current)
    {
      if value.Str? && ParseDecimal(value.s).Some? {
        ConvertScales(value.s);
      }
      match Convert(value, 1.0)
      case Success(v) =>
        voltage := v;
        err := None;
      case Failure(e) =>
        err := Some(e);
    }

    /** The `voltage` setter as intended: a string in millivolts is scaled to volts like the current's. */
    method SetVoltageFromMillivolts(value: PyValue) returns (err: Option<ConversionError>)
      modifies this
      ensures Convert(value, 0.001).Success? ==> err.None? && voltage == Convert(value, 0.001).value
      ensures value.Str? && ParseDecimal(value.s).Some? ==> voltage == ParseDecimal(value.s).value * 0.001
      ensures value.Dec? ==> voltage == value.d
      ensures Convert(value, 0.001).Failure? ==> err == Some(Convert(value, 0.001).error) && voltage == old(voltage)
      ensures current == old(current)
    {
      if value.Str? && ParseDecimal(value.s).Some? {
        ConvertScales(value.s);
      }
      match Convert(value, 0.001)
      case Success(v) =>
        voltage := v;
        err := None;
      case Failure(e) =>
        err := Some(e);
    }

    /** The `current` setter: a string in milliamperes is scaled to amperes. */
    method SetCurrent(value: PyValue) returns (err: Option<ConversionError>)
      modifies this
      ensures Convert(value, 0.001).Success? ==> err.None? && current == Convert(value, 0.001).value
      ensures value.Str? && ParseDecimal(value.s).Some? ==> current == ParseDecimal(value.s).value * 0.001
      ensures value.Dec? ==> current == value.d
      ensures Convert(value, 0.001).Failure? ==> err == Some(Convert(value, 0.001).error) && current == old(current)
      ensures voltage == old(voltage)
    {
      if value.Str? && ParseDecimal(value.s).Some? {
        ConvertScales(value.s);
      }
      match Convert(value, 0.001)
      case Success(i) =>
        current := i;
        err := None;
      case Failure(e) =>
        err := Some(e);
    }

    /**
     * `per_cent`: walks the table from its first breakpoint and returns at the
     * first breakpoint not below the voltage, its percentage at an exact match
     * and the interpolation from the previous breakpoint otherwise.
     */
    method PerCent() returns (p: real)
      ensures p == ChargePercent(voltage)
    {
      var t := PerCentTable;
      PerCentTableFacts();
      var lower := t[0];
      if voltage >= lower.0 {
        var i := 0;
        while i < |t|
          invariant 0 <= i <= |t|
          invariant forall j | 0 <= j < i :: voltage > t[j].0
          invariant lower == t[if i == 0 then 0 else i - 1]
        {
          var point := t[i];
          if voltage == point.0 {
            p := Quantize(point.1, Tenth);
            return;
          }
          if voltage < point.0 {
            ChordOnLine(t, 20.0, -180.0, i, if i == 0 then 0 else i - 1, voltage);
            p := Quantize(Scale(voltage, point, lower), Tenth);
            return;
          } else {
            lower := point;
          }
          i := i + 1;
        }
      }
      p := 0.0;
    }
  }

  /** "Battery in power": the power while charging, zero otherwise. */
  function PowerToBatt(b: BatteryCoordinator): (w: real)
    reads b
    ensures b.IsCharging() ==> w == b.Power()
    ensures !b.IsCharging() ==> w == 0.0
  {
    if b.IsCharging() then b.Power() else 0.0
  }

  /** "Battery out power": the negated power while not charging, zero otherwise. */
  function PowerFromBatt(b: BatteryCoordinator): (w: real)
    reads b
    ensures !b.IsCharging() ==> w == -b.Power()
    ensures b.IsCharging() ==> w == 0.0
  {
    if !b.IsCharging() then b.Power() * -1.0 else 0.0
  }

  /** "Battery is charging": on exactly while the current is positive. */
  predicate BatteryState(b: BatteryCoordinator)
    reads b
  {
    b.IsCharging()
  }

  /** At least one of the two power sensors reads zero, and in minus out is the power. */
  lemma PowerSplit(b: BatteryCoordinator)
    ensures PowerToBatt(b) == 0.0 || PowerFromBatt(b) == 0.0
    ensures PowerToBatt(b) - PowerFromBatt(b) == b.Power()
  {
  }

  /** With a non-negative battery voltage neither power sensor reads a negative value. */
  lemma PowersNonNegative(b: BatteryCoordinator)
    requires b.voltage >= 0.0
    ensures PowerToBatt(b) >= 0.0 && PowerFromBatt(b) >= 0.0
  {
    if b.IsCharging() {
      assert b.voltage * b.current >= 0.0;
      QuantizeSign(b.voltage * b.current, Thousandth);
    } else {
      assert b.voltage * b.current <= 0.0;
      QuantizeSign(b.voltage * b.current, Thousandth);
    }
  }

  /** The charging sensor is on exactly when the current is positive: 1 mA charges, 0 and -1 mA do not. */
  lemma BatteryStateFollowsCurrent(b: BatteryCoordinator)
    ensures BatteryState(b) <==> b.current > 0.0
    ensures b.current == 0.001 ==> BatteryState(b)
    ensures b.current == 0.0 || b.current == -0.001 ==> !BatteryState(b)
  {
  }

  /** 12 V at 5 A is 60 W into the battery; 12 V at -3 A is 36 W out of it. */
  lemma PowerExamples(b: BatteryCoordinator)
    requires b.voltage == 12.0
    ensures b.current == 5.0 ==> PowerToBatt(b) == 60.0 && PowerFromBatt(b) == 0.0
    ensures b.current == -3.0 ==> PowerToBatt(b) == 0.0 && PowerFromBatt(b) == 36.0
  {
    QuantizeThousandths(60000);
    QuantizeThousandths(-36000);
  }

  // ---------------------------------------------------------------------------
  // The charge percentage against its table

  /** At a breakpoint the charge percentage is that breakpoint's percentage. */
  lemma ChargePercentAtBreakpoint(i: nat)
    requires i < |PerCentTable|
    ensures ChargePercent(PerCentTable[i].0) == Quantize(PerCentTable[i].1, Tenth)
  {
    PerCentTableFacts();
    assert PerCentTable[0].0 <= PerCentTable[i].0 <= PerCentTable[6].0 by {
      if 0 < i { assert PerCentTable[0].0 < PerCentTable[i].0; }
      if i < 6 { assert PerCentTable[i].0 < PerCentTable[6].0; }
    }
  }

  /** Strictly between two neighbouring breakpoints it is their interpolation, rounded to tenths. */
  lemma ChargePercentBetween(i: nat, v: real)
    requires i + 1 < |PerCentTable|
    requires PerCentTable[i].0 < v < PerCentTable[i + 1].0
    ensures ChargePercent(v) == Quantize(Scale(v, PerCentTable[i + 1], PerCentTable[i]), Tenth)
  {
    PerCentTableFacts();
    ChordOnLine(PerCentTable, 20.0, -180.0, i + 1, i, v);
    assert PerCentTable[0].0 <= PerCentTable[i].0 && PerCentTable[i + 1].0 <= PerCentTable[6].0 by {
      if 0 < i { assert PerCentTable[0].0 < PerCentTable[i].0; }
      if i + 1 < 6 { assert PerCentTable[i + 1].0 < PerCentTable[6].0; }
    }
  }

  /** Below the first breakpoint and above the last one the percentage is zero. */
  lemma ChargePercentOutOfRange(v: real)
    requires v < PerCentTable[0].0 || v > PerCentTable[6].0
    ensures ChargePercent(v) == 0.0
  {
  }

  /** Within the table's range a higher voltage never reads a lower percentage. */
  lemma ChargePercentMonotone(v: real, w: real)
    requires 9.0 <= v <= w <= 15.0
    ensures ChargePercent(v) <= ChargePercent(w)
  {
    var x, y := 20.0 * (v - 9.0), 20.0 * (w - 9.0);
    assert x <= y;
    QuantizeMonotone(x, y, Tenth);
  }

  /** Every voltage reads a percentage from 0 to 120. */
  lemma ChargePercentRange(v: real)
    ensures 0.0 <= ChargePercent(v) <= 120.0
  {
    if 9.0 <= v <= 15.0 {
      var x := 20.0 * (v - 9.0);
      assert 0.0 <= x <= 120.0;
      QuantizeSign(x, Tenth);
      assert OnGrid(120.0, Tenth);
      QuantizeBelow(x, 120.0, Tenth);
    }
  }

  /** 12 V reads 60 %, 12.5 V 70 %, 9 V and 8 V 0 %. */
  lemma ChargePercentExamples()
    ensures ChargePercent(12.0) == 60.0
    ensures ChargePercent(12.5) == 70.0
    ensures ChargePercent(9.0) == 0.0
    ensures ChargePercent(8.0) == 0.0
  {
    QuantizeOnGrid(60.0, Tenth);
    QuantizeOnGrid(70.0, Tenth);
    QuantizeZero(Tenth);
  }

  // ---------------------------------------------------------------------------
  // The unscaled voltage setter

  /**
   * Set as written, a VE.Direct `V` reading such as "12000" (millivolts)
   * becomes as many volts, and any reading above 15 mV is off the table:
   * the sensor shows 0 %.
   */
  lemma UnscaledVoltageOffTable(reading: string)
    requires ParseDecimal(reading).Some? && ParseDecimal(reading).value > 15.0
    ensures Convert(Str(reading), 1.0) == Success(ParseDecimal(reading).value)
    ensures ChargePercent(ParseDecimal(reading).value) == 0.0
  {
  }

  /** Scaled from millivolts, every reading from 9000 to 15000 mV lands on the table's line, 12000 mV on 60 %. */
  lemma ScaledVoltageOnTable(reading: string)
    requires ParseDecimal(reading).Some? && 9000.0 <= ParseDecimal(reading).value <= 15000.0
    ensures Convert(Str(reading), 0.001).Success?
    ensures var v := Convert(Str(reading), 0.001).value;
      9.0 <= v <= 15.0 && ChargePercent(v) == Quantize(20.0 * (v - 9.0), Tenth)
    ensures ParseDecimal(reading).value == 12000.0 ==> ChargePercent(Convert(Str(reading), 0.001).value) == 60.0
  {
    var v := Convert(Str(reading), 0.001).value;
    assert v == ParseDecimal(reading).value * 0.001;
    ChargePercentExamples();
  }
}
