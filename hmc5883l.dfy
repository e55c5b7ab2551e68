/**
 * The HMC5883L three-axis compass: the measurement-configuration and
 * operating-mode register codes shown as names, and the field on each axis,
 * read in milligauss, shown in gauss.
 */
module Hmc5883l {
  import opened Wrappers
  import opened Decimals

  /** The names of measurement modes 0 to 3, in code order. */
  const MeasurementModes: seq<string> := ["Normal", "Positive bias", "Negative bias", "Config reserved"]

  /** The meas config sensor: codes 0 to 3 by name, any other code "Invalid". */
  function MeasurementMode(val: int): (name: string)
    ensures 0 <= val < 4 ==> name == MeasurementModes[val]
    ensures name == "Invalid" <==> !(0 <= val < 4)
  {
    if val == 0 then "Normal"
    else if val == 1 then "Positive bias"
    else if val == 2 then "Negative bias"
    else if val == 3 then "Config reserved"
    else "Invalid"
  }

  /** The code a measurement-mode name stands for, if any. */
  function MeasurementCode(name: string): (code: Option<int>)
    ensures code.Some? ==> 0 <= code.value < 4
  {
    if name == "Normal" then Some(0)
    else if name == "Positive bias" then Some(1)
    else if name == "Negative bias" then Some(2)
    else if name == "Config reserved" then Some(3)
    else None
  }

  /** A valid code survives being shown and read back, and so does every name the sensor can show but "Invalid". */
  lemma MeasurementModeRoundTrip(val: int, name: string)
    ensures 0 <= val < 4 ==> MeasurementCode(MeasurementMode(val)) == Some(val)
    ensures MeasurementCode(name).Some? ==> MeasurementMode(MeasurementCode(name).value) == name
    ensures MeasurementCode("Invalid").None?
  {
  }

  /** Different valid codes are shown differently. */
  lemma MeasurementModeInjective(a: int, b: int)
    requires 0 <= a < 4 && 0 <= b < 4 && a != b
    ensures MeasurementMode(a) != MeasurementMode(b)
  {
    MeasurementModeRoundTrip(a, "");
    MeasurementModeRoundTrip(b, "");
  }

  /** The operation mode sensor: 0 continuous, 1 single, 2 and 3 both idle, any other code "Invalid". */
  function OperatingMode(val: int): (name: string)
    ensures val == 0 <==> name == "Continuous-Measurement Mode"
    ensures val == 1 <==> name == "Single-Measurement Mode"
    ensures val == 2 || val == 3 <==> name == "Idle Mode"
    ensures name == "Invalid" <==> !(0 <= val < 4)
  {
    if val == 0 then "Continuous-Measurement Mode"
    else if val == 1 then "Single-Measurement Mode"
    else if val == 2 then "Idle Mode"
    else if val == 3 then "Idle Mode"
    else "Invalid"
  }

  /** Every code is shown as exactly one of the five names. */
  lemma OperatingModeTotal(val: int)
    ensures OperatingMode(val) in {"Continuous-Measurement Mode", "Single-Measurement Mode", "Idle Mode", "Invalid"}
    ensures MeasurementMode(val) in MeasurementModes + ["Invalid"]
  {
  }

  /** The operating mode's name tells its code apart except for the two idle codes. */
  lemma OperatingModeOnlyIdleCollides(a: int, b: int)
    requires 0 <= a < b < 4
    ensures OperatingMode(a) == OperatingMode(b) <==> a == 2 && b == 3
  {
  }

  /** A Mag sensor's value: the raw reading in milligauss as gauss, rounded to thousandths. */
  function Gauss(raw: int): (g: real)
    ensures OnGrid(g, Thousandth)
    ensures g * 1000.0 == raw as real
  {
    QuantizeThousandths(raw);
    Quantize(raw as real * 0.001, Thousandth)
  }

  /** The rounding loses nothing: distinct readings are shown differently, and readings keep their order. */
  lemma GaussInjectiveMonotone(a: int, b: int)
    ensures Gauss(a) == Gauss(b) <==> a == b
    ensures a <= b ==> Gauss(a) <= Gauss(b)
  {
    assert Gauss(a) * 1000.0 == a as real && Gauss(b) * 1000.0 == b as real;
  }

  /** The Mag X, Mag Y and Mag Z sensors together. */
  datatype Field = Field(x: real, y: real, z: real)

  /** Each axis is converted on its own, from its own reading. */
  function MagField(rawX: int, rawY: int, rawZ: int): (f: Field)
    ensures f.x * 1000.0 == rawX as real && f.y * 1000.0 == rawY as real && f.z * 1000.0 == rawZ as real
  {
    Field(Gauss(rawX), Gauss(rawY), Gauss(rawZ))
  }

  /** A reading on one axis changes that axis only. */
  lemma AxesIndependent(rawX: int, rawY: int, rawZ: int, otherX: int)
    ensures MagField(otherX, rawY, rawZ).y == MagField(rawX, rawY, rawZ).y
    ensures MagField(otherX, rawY, rawZ).z == MagField(rawX, rawY, rawZ).z
    ensures MagField(otherX, rawY, rawZ).x == MagField(rawX, rawY, rawZ).x <==> otherX == rawX
  {
    GaussInjectiveMonotone(otherX, rawX);
  }

  /** 1234 mGauss shows 1.234 Gauss, -5 shows -0.005, 0 shows 0. */
  lemma GaussExamples()
    ensures Gauss(1234) == 1.234 && Gauss(-5) == -0.005 && Gauss(0) == 0.0
  {
    assert Gauss(1234) * 1000.0 == 1234.0;
    assert Gauss(-5) * 1000.0 == -5.0;
  }
}
