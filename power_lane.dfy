/**
 * A power distribution lane: an ACS712 current sensor on one ADS1115 channel
 * and an active-low relay on one GPIO pin, both named after the lane.
 */
module PowerLane {
  import opened Wrappers
  import opened Decimals
  import RB = RelayBoard
  import Acs712

  /** Reading an attribute that was never assigned. */
  datatype LaneError = AttributeError

  class PowerLaneSwitch {
    const gpio: RB.Gpio
    /** `_name`. */
    const name: string
    /** `_relay_pin`. */
    const relayPin: int
    /** `_sensor_no`. */
    const channelNo: int

    /** Sets the relay pin up as an output, which writes no level. */
    constructor (gpio: RB.Gpio, name: string, relayPin: int, channelNo: int)
      ensures this.gpio == gpio && this.name == name && this.relayPin == relayPin && this.channelNo == channelNo
    {
      this.gpio := gpio;
      this.name := name;
      this.relayPin := relayPin;
      this.channelNo := channelNo;
    }

    /** The pin and channel attributes the lane's constructor assigns, by their Python names. */
    const pinAttributes: map<string, int> := map["_relay_pin" := relayPin, "_sensor_no" := channelNo]

    /**
     * `is_on` reading its pin number from the attribute named `attr`: an
     * attribute the constructor never assigned raises AttributeError.
     */
    function IsOnVia(attr: string): (r: Result<bool, LaneError>)
      reads gpio
      ensures r.Failure? <==> attr !in pinAttributes
      ensures r.Success? ==> (r.value <==> gpio.Input(pinAttributes[attr]) == 0)
    {
      if attr in pinAttributes then Success(gpio.Input(pinAttributes[attr]) == 0)
      else Failure(AttributeError)
    }

    /** `is_on` as written: it reads `_pin_no`, which is not among the attributes assigned, so every call raises. */
    function IsOnAsWritten(): (r: Result<bool, LaneError>)
      reads gpio
      ensures r == Failure(AttributeError)
    {
      IsOnVia("_pin_no")
    }

    /** `is_on` as intended: the relay pin is low. */
    predicate IsOn()
      reads gpio
      ensures IsOnVia("_relay_pin") == Success(IsOn())
    {
      gpio.Input(relayPin) == 0
    }

    /** `turn_on`: drives the relay pin low, and only that pin. */
    method TurnOn()
      modifies gpio
      ensures gpio.levels == old(gpio.levels)[relayPin := 0]
      ensures IsOn()
    {
      gpio.Output(relayPin, 0);
    }

    /** `turn_off`: drives the relay pin high, and only that pin. */
    method TurnOff()
      modifies gpio
      ensures gpio.levels == old(gpio.levels)[relayPin := 1]
      ensures !IsOn()
    {
      gpio.Output(relayPin, 1);
    }
  }

  /**
   * After switching a lane, `is_on` as written still raises, while the
   * intended reading reports the state just commanded.
   */
  method SwitchThenAsk(sw: PowerLaneSwitch, on: bool) returns (asWritten: Result<bool, LaneError>, intended: bool)
    modifies sw.gpio
    ensures asWritten == Failure(AttributeError)
    ensures intended == on
  {
    if on {
      sw.TurnOn();
    } else {
      sw.TurnOff();
    }
    asWritten := sw.IsOnAsWritten();
    intended := sw.IsOn();
  }

  /** A lane's relay is read exactly as an inverted relay of the relay board. */
  lemma LaneIsAnInvertedRelay(level: int)
    requires level == 0 || level == 1
    ensures (level == 0) <==> RB.LevelIsOn(level, true)
    ensures RB.OnLevel(true) == 0 && RB.OffLevel(true) == 1
  {
  }

  /** `_sensibility` of the lane's current sensor, in mV/A. */
  const LaneSensibility: int := 185

  /**
   * `_handle_coordinator_update` of the lane's current sensor: the reading of
   * channel `channelNo` converted with the lane's own sensitivity; a channel
   * missing from the coordinator's data raises.
   */
  function CurrentUpdate(data: map<string, real>, channelNo: int): (r: Result<Acs712.Reading, Acs712.ReadError>)
    ensures r.Failure? <==> Acs712.ChannelKey(channelNo) !in data
    ensures r.Success? ==>
      var v := data[Acs712.ChannelKey(channelNo)];
      OnGrid(r.value.nativeValue, Hundredth)
      && -0.005 <= r.value.nativeValue - (v - 2500.0) / 185.0 <= 0.005
      && r.value.attributes.sensibility == "185 mV/A"
      && r.value.attributes.rawValue == (v - 2500.0) / 185.0
  {
    var key := Acs712.ChannelKey(channelNo);
    if key !in data then Failure(Acs712.KeyError)
    else
      var v := data[key];
      var raw := (v - 2500.0) / LaneSensibility as real;
      QuantizeError(raw, Hundredth);
      Acs712.SensibilityText();
      Success(Acs712.Reading(
        Quantize(raw, Hundredth),
        Acs712.Attributes("ch" + IntToString(channelNo), v, "mV", IntToString(LaneSensibility) + " mV/A", raw)))
  }

  /** A lane's current sensor shows what the ACS712 sensor on the same channel shows. */
  lemma AgreesWithAcs712(data: map<string, real>, channelNo: int)
    ensures CurrentUpdate(data, channelNo) == Acs712.Update(data, channelNo)
  {
  }

  /** `unique_id`, shared by the lane's sensor and switch: the entry id, "PowerLane" and the lane's name. */
  function UniqueId(entryId: string, name: string): string
  {
    entryId + "PowerLane" + name
  }

  /** Within one entry, lanes with different names have different ids. */
  lemma UniqueIdInjective(entryId: string, a: string, b: string)
    ensures UniqueId(entryId, a) == UniqueId(entryId, b) ==> a == b
  {
    if UniqueId(entryId, a) == UniqueId(entryId, b) {
      var n := |entryId| + 9;
      assert UniqueId(entryId, a)[n..] == a;
      assert UniqueId(entryId, b)[n..] == b;
    }
  }

  /** `_attr_name` of the lane's sensor and of its switch. */
  function SensorName(name: string): string { name + " current" }
  function SwitchName(name: string): string { name + " switch" }

  /** The sensor and the switch of a lane are named differently. */
  lemma NamesDiffer(name: string)
    ensures SensorName(name) != SwitchName(name)
  {
    assert SensorName(name)[|name| + 1] == 'c' && SwitchName(name)[|name| + 1] == 's';
  }
}
