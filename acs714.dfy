/**
 * The ACS712 hall-effect current sensors on channels 0 to 3 of the ADS1115
 * converter: each reading, in millivolts, is offset by the 2500 mV of zero
 * current and divided by the 185 mV/A sensitivity, then shown in amperes
 * rounded to hundredths.
 */
module Acs712 {
  import opened Wrappers
  import opened Decimals

  /** `sensibility`, in mV/A. */
  const Sensibility: int := 185

  /** How the sensitivity is written in the attributes. */
  lemma SensibilityText()
    ensures IntToString(Sensibility) + " mV/A" == "185 mV/A"
  {
    assert NatToString(1) == "1";
    assert NatToString(18) == NatToString(1) + "8";
    assert NatToString(185) == NatToString(18) + "5";
  }

  /** The output of the sensor at zero current, in mV. */
  const ZeroCurrent: real := 2500.0

  /** `_raw_value`: the current in amperes, unrounded. */
  function RawValue(sensorValue: real): real
  {
    (sensorValue - ZeroCurrent) / Sensibility as real
  }

  /** The reading a current in amperes produces. */
  function SensorValueOf(amps: real): real
  {
    amps * Sensibility as real + ZeroCurrent
  }

  /** Reading and current determine each other. */
  lemma RawValueRoundTrip(sensorValue: real, amps: real)
    ensures SensorValueOf(RawValue(sensorValue)) == sensorValue
    ensures RawValue(SensorValueOf(amps)) == amps
  {
  }

  /** The current shown: the unrounded current rounded to hundredths of an ampere. */
  function Current(sensorValue: real): (a: real)
    ensures OnGrid(a, Hundredth)
    ensures -0.005 <= a - RawValue(sensorValue) <= 0.005
    ensures sensorValue == ZeroCurrent ==> a == 0.0
    ensures sensorValue >= ZeroCurrent ==> a >= 0.0
    ensures sensorValue <= ZeroCurrent ==> a <= 0.0
  {
    var x := RawValue(sensorValue);
    QuantizeError(x, Hundredth);
    QuantizeSign(x, Hundredth);
    QuantizeZero(Hundredth);
    Quantize(x, Hundredth)
  }

  /** A higher reading never shows a lower current. */
  lemma CurrentMonotone(v: real, w: real)
    requires v <= w
    ensures Current(v) <= Current(w)
  {
    var x, y := RawValue(v), RawValue(w);
    assert x <= y;
    QuantizeMonotone(x, y, Hundredth);
  }

  /**
   * A whole number of millivolts never falls exactly halfway between two
   * hundredths of an ampere, so the way ties are broken never decides what
   * is shown.
   */
  lemma NoTieOnWholeMillivolts(sensorValue: int)
    ensures var y := RawValue(sensorValue as real) * 100.0 + 0.5; y.Floor as real != y
  {
    var y := RawValue(sensorValue as real) * 100.0 + 0.5;
    var n := y.Floor;
    if y == n as real {
      assert false;
    }
  }

  /** 2500 mV shows 0 A, 2685 mV 1 A, 2315 mV -1 A. */
  lemma CurrentExamples()
    ensures Current(2500.0) == 0.0 && Current(2685.0) == 1.0 && Current(2315.0) == -1.0
  {
    QuantizeOnGrid(1.0, Hundredth);
    QuantizeOnGrid(-1.0, Hundredth);
  }

  /** The key under which the coordinator holds ADS1115 channel `n`. */
  function ChannelKey(n: int): string
  {
    "ads1115_ch" + IntToString(n)
  }

  /** Different channels are held under different keys. */
  lemma ChannelKeyInjective(a: int, b: int)
    requires ChannelKey(a) == ChannelKey(b)
    ensures a == b
  {
    assert ChannelKey(a)[10..] == IntToString(a);
    assert ChannelKey(b)[10..] == IntToString(b);
    IntToStringInjective(a, b);
  }

  /** Looking a channel up in the coordinator's data raises KeyError when it is missing. */
  datatype ReadError = KeyError

  /** `_attr_extra_state_attributes` after an update. */
  datatype Attributes = Attributes(
    adsChannel: string,
    sensorValue: real,
    sensorUnits: string,
    sensibility: string,
    rawValue: real)

  /** What an update shows: the rounded current and the attributes. */
  datatype Reading = Reading(nativeValue: real, attributes: Attributes)

  /**
   * `_handle_coordinator_update` of sensor `sensorNo`: the reading of its
   * channel converted, with the channel, the reading, its unit, the
   * sensitivity and the unrounded current recorded; a channel missing from
   * the coordinator's data raises.
   */
  function Update(data: map<string, real>, sensorNo: int): (r: Result<Reading, ReadError>)
    ensures r.Failure? <==> ChannelKey(sensorNo) !in data
    ensures r.Success? ==>
      var v := data[ChannelKey(sensorNo)];
      r.value.nativeValue == Current(v)
      && r.value.attributes == Attributes("ch" + IntToString(sensorNo), v, "mV", "185 mV/A", RawValue(v))
  {
    var key := ChannelKey(sensorNo);
    if key !in data then Failure(KeyError)
    else
      var v := data[key];
      SensibilityText();
      Success(Reading(Current(v), Attributes("ch" + IntToString(sensorNo), v, "mV", IntToString(Sensibility) + " mV/A", RawValue(v))))
  }

  /** A sensor's update depends only on its own channel's reading. */
  lemma UpdateReadsOwnChannel(data: map<string, real>, sensorNo: int, other: int, v: real)
    requires other != sensorNo
    ensures Update(data[ChannelKey(other) := v], sensorNo) == Update(data, sensorNo)
  {
    if ChannelKey(other) == ChannelKey(sensorNo) {
      ChannelKeyInjective(other, sensorNo);
    }
  }

  /** An ACS712 sensor entity: its channel. */
  datatype Sensor = Sensor(sensorNo: int)

  /** `add_acs712_sensors`: one sensor per channel, channels 0 to 3 in order. */
  function AddAcs712Sensors(): (sensors: seq<Sensor>)
    ensures |sensors| == 4
    ensures forall i | 0 <= i < |sensors| :: sensors[i].sensorNo == i
  {
    [Sensor(0), Sensor(1), Sensor(2), Sensor(3)]
  }

  /** `unique_id`: the entry id, "ACS712" and the channel. */
  function UniqueId(entryId: string, sensorNo: int): string
  {
    entryId + "ACS712" + IntToString(sensorNo)
  }

  /** `_attr_name`. */
  function Name(sensorNo: int): string
  {
    "ACS712 Sensor " + IntToString(sensorNo)
  }

  /** Within one entry, sensors on different channels have different ids. */
  lemma UniqueIdInjective(entryId: string, a: int, b: int)
    ensures UniqueId(entryId, a) == UniqueId(entryId, b) ==> a == b
  {
    if UniqueId(entryId, a) == UniqueId(entryId, b) {
      var n := |entryId| + 6;
      assert UniqueId(entryId, a)[n..] == IntToString(a);
      assert UniqueId(entryId, b)[n..] == IntToString(b);
      IntToStringInjective(a, b);
    }
  }

  /** Sensors on different channels have different names. */
  lemma NameInjective(a: int, b: int)
    ensures Name(a) == Name(b) ==> a == b
  {
    if Name(a) == Name(b) {
      assert Name(a)[14..] == IntToString(a);
      assert Name(b)[14..] == IntToString(b);
      IntToStringInjective(a, b);
    }
  }

  /** The four sensors `add_acs712_sensors` returns have distinct ids and distinct names. */
  lemma AddedSensorsDistinct(entryId: string)
    ensures forall i, j | 0 <= i < j < |AddAcs712Sensors()| ::
      UniqueId(entryId, AddAcs712Sensors()[i].sensorNo) != UniqueId(entryId, AddAcs712Sensors()[j].sensorNo)
      && Name(AddAcs712Sensors()[i].sensorNo) != Name(AddAcs712Sensors()[j].sensorNo)
  {
    var s := AddAcs712Sensors();
    forall i, j | 0 <= i < j < |s|
      ensures UniqueId(entryId, s[i].sensorNo) != UniqueId(entryId, s[j].sensorNo)
      ensures Name(s[i].sensorNo) != Name(s[j].sensorNo)
    {
      UniqueIdInjective(entryId, s[i].sensorNo, s[j].sensorNo);
      NameInjective(s[i].sensorNo, s[j].sensorNo);
    }
  }
}
