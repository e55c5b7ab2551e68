/**
 * The charge-percentage sensor of the SmartSolar device: the battery voltage
 * the charger reports, in millivolts, interpolated over a table of
 * breakpoints. Its loop has no early exit, so later breakpoints overwrite the
 * value earlier ones wrote; since all breakpoints lie on one line, every
 * write is the same value.
 */
module SmartSolarMppt {
  import opened Wrappers
  import opened Decimals
  import opened Interpolation
  import Battery

  /** `_data` of the sensor: millivolts against per cent, 2 % per 100 mV from 9000 mV. */
  const MillivoltTable: seq<Point> :=
    [(9000.0, 0.0), (10000.0, 20.0), (11000.0, 40.0), (12000.0, 60.0),
     (13000.0, 80.0), (14000.0, 100.0), (15000.0, 120.0)]

  lemma MillivoltTableFacts()
    ensures |MillivoltTable| == 7
    ensures Increasing(MillivoltTable) && OnLine(MillivoltTable, 0.02, -180.0)
    ensures MillivoltTable[0].0 == 9000.0 && MillivoltTable[6].0 == 15000.0
  {
  }

  /** The percentage the sensor ends up showing: the table's line rounded to tenths from 9000 to 15000 mV, 0 elsewhere. */
  function PercentOfMillivolts(v: real): real
  {
    if 9000.0 <= v <= 15000.0 then Quantize(0.02 * (v - 9000.0), Tenth) else 0.0
  }

  /**
   * The loop of `_handle_coordinator_update`: every breakpoint not below the
   * voltage writes a value, the match at an exact breakpoint or the
   * interpolation from the last breakpoint below it; the last write stays.
   */
  method Interpolate(voltage: real) returns (value: real)
    ensures value == PercentOfMillivolts(voltage)
  {
    var t := MillivoltTable;
    MillivoltTableFacts();
    var lower := t[0];
    ghost var k: nat := 0;
    value := 0.0;
    if voltage >= lower.0 {
      for i := 0 to |t|
        invariant k < |t| && lower == t[k] && (k < i || k == 0)
        invariant k > 0 ==> t[k].0 < voltage
        invariant value == if i > 0 && voltage <= t[i - 1].0 then PercentOfMillivolts(voltage) else 0.0
      {
        var point := t[i];
        if voltage == point.0 {
          PercentAtBreakpoint(i);
          value := Quantize(point.1, Tenth);
        } else if voltage < point.0 {
          assert i != k && voltage <= t[6].0;
          EveryWriteIsTheLine(voltage, i, k);
          value := Quantize(Scale(voltage, point, lower), Tenth);
        } else {
          assert i > 0 ==> t[i - 1].0 < t[i].0;
          lower := point;
          k := i;
        }
      }
    }
  }

  class BatteryPerCentSensor {
    /** `_attr_native_value`; nothing until the first update. */
    var nativeValue: Option<real>

    constructor ()
      ensures nativeValue.None?
    {
      nativeValue := None;
    }

    /**
     * `_handle_coordinator_update`, given the coordinator's `battery_voltage`
     * string: a numeral is interpolated, anything else raises and leaves the
     * shown value as it was.
     */
    method HandleCoordinatorUpdate(batteryVoltage: string) returns (err: Option<ConversionError>)
      modifies this
      ensures ParseDecimal(batteryVoltage).Some? ==>
        err.None? && nativeValue == Some(PercentOfMillivolts(ParseDecimal(batteryVoltage).value))
      ensures ParseDecimal(batteryVoltage).None? ==> err == Some(InvalidOperation) && nativeValue == old(nativeValue)
    {
      match ParseDecimal(batteryVoltage)
      case None =>
        err := Some(InvalidOperation);
      case Some(v) =>
        var p := Interpolate(v);
        nativeValue := Some(p);
        err := None;
    }
  }

  /**
   * Why the missing `break` is harmless: whichever breakpoint is the upper
   * point and whichever other one is the lower, the rounded interpolation is
   * the same value inside the table's range.
   */
  lemma EveryWriteIsTheLine(v: real, upper: nat, lower: nat)
    requires upper < |MillivoltTable| && lower < |MillivoltTable| && upper != lower
    requires 9000.0 <= v <= 15000.0
    ensures Quantize(Scale(v, MillivoltTable[upper], MillivoltTable[lower]), Tenth) == PercentOfMillivolts(v)
  {
    MillivoltTableFacts();
    ChordOnLine(MillivoltTable, 0.02, -180.0, upper, lower, v);
  }

  /** At a breakpoint the sensor shows that breakpoint's percentage. */
  lemma PercentAtBreakpoint(i: nat)
    requires i < |MillivoltTable|
    ensures PercentOfMillivolts(MillivoltTable[i].0) == Quantize(MillivoltTable[i].1, Tenth)
  {
    MillivoltTableFacts();
    assert MillivoltTable[0].0 <= MillivoltTable[i].0 <= MillivoltTable[6].0 by {
      if 0 < i { assert MillivoltTable[0].0 < MillivoltTable[i].0; }
      if i < 6 { assert MillivoltTable[i].0 < MillivoltTable[6].0; }
    }
  }

  /** Strictly between two neighbouring breakpoints it shows their interpolation, rounded to tenths. */
  lemma PercentBetween(i: nat, v: real)
    requires i + 1 < |MillivoltTable|
    requires MillivoltTable[i].0 < v < MillivoltTable[i + 1].0
    ensures PercentOfMillivolts(v) == Quantize(Scale(v, MillivoltTable[i + 1], MillivoltTable[i]), Tenth)
  {
    MillivoltTableFacts();
    assert MillivoltTable[0].0 <= MillivoltTable[i].0 && MillivoltTable[i + 1].0 <= MillivoltTable[6].0 by {
      if 0 < i { assert MillivoltTable[0].0 < MillivoltTable[i].0; }
      if i + 1 < 6 { assert MillivoltTable[i + 1].0 < MillivoltTable[6].0; }
    }
    EveryWriteIsTheLine(v, i + 1, i);
  }

  /** Within the table's range a higher voltage never shows a lower percentage. */
  lemma PercentMonotone(v: real, w: real)
    requires 9000.0 <= v <= w <= 15000.0
    ensures PercentOfMillivolts(v) <= PercentOfMillivolts(w)
  {
    var x, y := 0.02 * (v - 9000.0), 0.02 * (w - 9000.0);
    assert x <= y;
    QuantizeMonotone(x, y, Tenth);
  }

  /** Inside the range, a voltage whose line value is a whole number of tenths shows exactly that value. */
  lemma PercentOnGrid(v: real, p: real)
    requires 9000.0 <= v <= 15000.0 && 0.02 * (v - 9000.0) == p && OnGrid(p, Tenth)
    ensures PercentOfMillivolts(v) == p
  {
    QuantizeOnGrid(p, Tenth);
  }

  /** 12000 mV shows 60 %, 12500 mV 70 %, 15000 mV 120 %; 9000, 8000 and 16000 mV show 0 %. */
  lemma PercentExamples()
    ensures PercentOfMillivolts(12000.0) == 60.0
    ensures PercentOfMillivolts(12500.0) == 70.0
    ensures PercentOfMillivolts(15000.0) == 120.0
    ensures PercentOfMillivolts(9000.0) == 0.0
    ensures PercentOfMillivolts(8000.0) == 0.0
    ensures PercentOfMillivolts(16000.0) == 0.0
  {
    PercentOnGrid(12000.0, 60.0);
    PercentOnGrid(12500.0, 70.0);
    PercentOnGrid(15000.0, 120.0);
    PercentOnGrid(9000.0, 0.0);
  }

  /** This sensor and the battery coordinator's `per_cent` agree once millivolts are scaled to volts. */
  lemma AgreesWithBatteryPercent(mv: real)
    ensures PercentOfMillivolts(mv) == Battery.ChargePercent(mv * 0.001)
  {
    assert 0.02 * (mv - 9000.0) == 20.0 * (mv * 0.001 - 9.0);
  }
}
