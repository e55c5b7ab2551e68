/**
 * The fridge: its power switch is relay 1 of the relay board, and its current
 * and power are derived from the charger's load current and panel voltage,
 * less the 0.5 A the rest of the load draws, while that relay is on.
 */
module Fridge {
  import opened Wrappers
  import opened Decimals
  import RB = RelayBoard

  /** `relay_index` of every fridge entity. */
  const FridgeRelay: nat := 1

  class FridgePowerSwitch {
    const board: RB.RelayBoardPigPio

    constructor (board: RB.RelayBoardPigPio)
      ensures this.board == board
    {
      this.board := board;
    }

    /** `is_on`: the state of relay 1. */
    predicate IsOn()
      requires board.Valid()
      reads board.gpio
    {
      board.relay[FridgeRelay].IsOn()
    }

    /** `async_turn_on`: switches relay 1 on, and only relay 1. */
    method AsyncTurnOn()
      requires board.Valid()
      modifies board.gpio
      ensures IsOn()
      ensures board.gpio.levels == old(board.gpio.levels)[RB.RelayPins[FridgeRelay] := 0]
    {
      board.relay[FridgeRelay].RelayOn();
    }

    /** `async_turn_off`: switches relay 1 off, and only relay 1. */
    method AsyncTurnOff()
      requires board.Valid()
      modifies board.gpio
      ensures !IsOn()
      ensures board.gpio.levels == old(board.gpio.levels)[RB.RelayPins[FridgeRelay] := 1]
    {
      board.relay[FridgeRelay].RelayOff();
    }
  }

  /** The fridge current while relay 1 is on: the load current in mA, as amperes less 0.5 A, rounded to milliamperes. */
  function FridgeAmps(loadCurrent: real): (a: real)
    ensures OnGrid(a, Thousandth)
    ensures -0.0005 <= a - (loadCurrent * 0.001 - 0.5) <= 0.0005
    ensures loadCurrent >= 500.0 ==> a >= 0.0
  {
    var x := loadCurrent * 0.001 - 0.5;
    QuantizeError(x, Thousandth);
    QuantizeSign(x, Thousandth);
    Quantize(x, Thousandth)
  }

  /**
   * The fridge power while relay 1 is on: the same current, unrounded, times
   * the panel voltage in mV as volts, rounded to milliwatts.
   */
  function FridgeWatts(panelVoltage: real, loadCurrent: real): (w: real)
    ensures OnGrid(w, Thousandth)
    ensures -0.0005 <= w - (loadCurrent * 0.001 - 0.5) * (panelVoltage * 0.001) <= 0.0005
    ensures loadCurrent >= 500.0 && panelVoltage >= 0.0 ==> w >= 0.0
  {
    var x := (loadCurrent * 0.001 - 0.5) * (panelVoltage * 0.001);
    QuantizeError(x, Thousandth);
    QuantizeSign(x, Thousandth);
    Quantize(x, Thousandth)
  }

  /**
   * The fridge current sensor, given the charger's `panel_voltage` and
   * `load_current` strings and the state of relay 1. Both strings are read as
   * Decimals, so either one not being a numeral raises, even though the
   * current does not use the voltage.
   */
  function FridgeCurrent(panelVoltage: string, loadCurrent: string, relayOn: bool): (r: Result<real, ConversionError>)
    ensures r.Success? <==> ParseDecimal(panelVoltage).Some? && ParseDecimal(loadCurrent).Some?
    ensures r.Failure? ==> r.error == InvalidOperation
    ensures r.Success? && !relayOn ==> r.value == 0.0
    ensures r.Success? && relayOn ==> r.value == FridgeAmps(ParseDecimal(loadCurrent).value)
  {
    var v, i := ParseDecimal(panelVoltage), ParseDecimal(loadCurrent);
    if v.None? || i.None? then Failure(InvalidOperation)
    else Success(if relayOn then FridgeAmps(i.value) else 0.0)
  }

  /** The fridge power sensor, on the same inputs. */
  function FridgePower(panelVoltage: string, loadCurrent: string, relayOn: bool): (r: Result<real, ConversionError>)
    ensures r.Success? <==> ParseDecimal(panelVoltage).Some? && ParseDecimal(loadCurrent).Some?
    ensures r.Failure? ==> r.error == InvalidOperation
    ensures r.Success? && !relayOn ==> r.value == 0.0
    ensures r.Success? && relayOn ==> r.value == FridgeWatts(ParseDecimal(panelVoltage).value, ParseDecimal(loadCurrent).value)
  {
    var v, i := ParseDecimal(panelVoltage), ParseDecimal(loadCurrent);
    if v.None? || i.None? then Failure(InvalidOperation)
    else Success(if relayOn then FridgeWatts(v.value, i.value) else 0.0)
  }

  /** `unique_id` of the three fridge entities: the entry id, then "fridge", then "power", "I" or "P". */
  function SwitchUniqueId(entryId: string): string { entryId + "fridge" + "power" }
  function CurrentUniqueId(entryId: string): string { entryId + "fridge" + "I" }
  function PowerUniqueId(entryId: string): string { entryId + "fridge" + "P" }

  /** Within one entry the three fridge entities have distinct ids, and equal ids come from the same entry. */
  lemma UniqueIdsDistinct(entryId: string, other: string)
    ensures SwitchUniqueId(entryId) != CurrentUniqueId(entryId)
    ensures SwitchUniqueId(entryId) != PowerUniqueId(entryId)
    ensures CurrentUniqueId(entryId) != PowerUniqueId(entryId)
    ensures CurrentUniqueId(entryId) == CurrentUniqueId(other) ==> entryId == other
    ensures PowerUniqueId(entryId) == PowerUniqueId(other) ==> entryId == other
  {
    var n := |entryId|;
    assert SwitchUniqueId(entryId)[n + 6] == 'p' && CurrentUniqueId(entryId)[n + 6] == 'I' && PowerUniqueId(entryId)[n + 6] == 'P';
    if CurrentUniqueId(entryId) == CurrentUniqueId(other) {
      assert entryId == CurrentUniqueId(entryId)[..n];
      assert other == CurrentUniqueId(other)[..|other|];
    }
    if PowerUniqueId(entryId) == PowerUniqueId(other) {
      assert entryId == PowerUniqueId(entryId)[..n];
      assert other == PowerUniqueId(other)[..|other|];
    }
  }

  /** The fridge current sensor: on each coordinator update it shows `FridgeCurrent` for the present state of relay 1. */
  class FridgeCurrentSensor {
    const board: RB.RelayBoardPigPio
    /** `_attr_native_value`; nothing until the first update. */
    var nativeValue: Option<real>

    constructor (board: RB.RelayBoardPigPio)
      ensures this.board == board && nativeValue.None?
    {
      this.board := board;
      nativeValue := None;
    }

    /** `_handle_coordinator_update`; a string that is not a numeral raises and leaves the shown value as it was. */
    method HandleCoordinatorUpdate(panelVoltage: string, loadCurrent: string) returns (err: Option<ConversionError>)
      requires board.Valid()
      modifies this
      ensures var r := FridgeCurrent(panelVoltage, loadCurrent, board.relay[FridgeRelay].IsOn());
        if r.Success? then err.None? && nativeValue == Some(r.value) else err == Some(r.error) && nativeValue == old(nativeValue)
    {
      var on := board.relay[FridgeRelay].IsOn();
      match FridgeCurrent(panelVoltage, loadCurrent, on)
      case Success(a) =>
        nativeValue := Some(a);
        err := None;
      case Failure(e) =>
        err := Some(e);
    }
  }

  /** The fridge power sensor: on each coordinator update it shows `FridgePower` for the present state of relay 1. */
  class FridgePowerSensor {
    const board: RB.RelayBoardPigPio
    /** `_attr_native_value`; nothing until the first update. */
    var nativeValue: Option<real>

    constructor (board: RB.RelayBoardPigPio)
      ensures this.board == board && nativeValue.None?
    {
      this.board := board;
      nativeValue := None;
    }

    /** `_handle_coordinator_update`; a string that is not a numeral raises and leaves the shown value as it was. */
    method HandleCoordinatorUpdate(panelVoltage: string, loadCurrent: string) returns (err: Option<ConversionError>)
      requires board.Valid()
      modifies this
      ensures var r := FridgePower(panelVoltage, loadCurrent, board.relay[FridgeRelay].IsOn());
        if r.Success? then err.None? && nativeValue == Some(r.value) else err == Some(r.error) && nativeValue == old(nativeValue)
    {
      var on := board.relay[FridgeRelay].IsOn();
      match FridgePower(panelVoltage, loadCurrent, on)
      case Success(w) =>
        nativeValue := Some(w);
        err := None;
      case Failure(e) =>
        err := Some(e);
    }
  }

  /**
   * Switching the fridge off and then updating both sensors shows zero
   * current and zero power, whatever the charger reports, provided it reports numerals.
   */
  method OffShowsZero(board: RB.RelayBoardPigPio, panelVoltage: string, loadCurrent: string) returns (current: Option<real>, power: Option<real>)
    requires board.Valid()
    requires ParseDecimal(panelVoltage).Some? && ParseDecimal(loadCurrent).Some?
    modifies board.gpio
    ensures current == Some(0.0) && power == Some(0.0)
  {
    var sw := new FridgePowerSwitch(board);
    sw.AsyncTurnOff();
    var cs := new FridgeCurrentSensor(board);
    var ps := new FridgePowerSensor(board);
    var _ := cs.HandleCoordinatorUpdate(panelVoltage, loadCurrent);
    var _ := ps.HandleCoordinatorUpdate(panelVoltage, loadCurrent);
    current, power := cs.nativeValue, ps.nativeValue;
  }

  /**
   * The two sensors fail on the same inputs; with relay 1 off both read zero,
   * and with it on, a load current of at least 500 mA gives a non-negative
   * current and, at a non-negative panel voltage, a non-negative power.
   */
  lemma SensorsAgree(panelVoltage: string, loadCurrent: string, relayOn: bool)
    ensures FridgeCurrent(panelVoltage, loadCurrent, relayOn).Success? <==> FridgePower(panelVoltage, loadCurrent, relayOn).Success?
    ensures FridgeCurrent(panelVoltage, loadCurrent, false).Success? ==>
      FridgeCurrent(panelVoltage, loadCurrent, false).value == 0.0 && FridgePower(panelVoltage, loadCurrent, false).value == 0.0
    ensures relayOn && FridgeCurrent(panelVoltage, loadCurrent, relayOn).Success? && ParseDecimal(loadCurrent).value >= 500.0 ==>
      FridgeCurrent(panelVoltage, loadCurrent, relayOn).value >= 0.0
      && (ParseDecimal(panelVoltage).value >= 0.0 ==> FridgePower(panelVoltage, loadCurrent, relayOn).value >= 0.0)
  {
  }

  /**
   * Power over voltage gives back the current before its rounding: at a
   * positive panel voltage the power sensor's value divided by the voltage in
   * volts lies within half a milliwatt per volt of it.
   */
  lemma PowerOverVoltage(panelVoltage: real, loadCurrent: real)
    requires panelVoltage > 0.0
    ensures var v := panelVoltage * 0.001;
      -0.0005 / v <= FridgeWatts(panelVoltage, loadCurrent) / v - (loadCurrent * 0.001 - 0.5) <= 0.0005 / v
  {
    var v := panelVoltage * 0.001;
    var a := loadCurrent * 0.001 - 0.5;
    var w := FridgeWatts(panelVoltage, loadCurrent);
    var d := w - a * v;
    assert -0.0005 <= d <= 0.0005;
    assert w / v - a == d / v;
    DivideBounds(d, v);
  }

  lemma DivideBounds(d: real, v: real)
    requires v > 0.0 && -0.0005 <= d <= 0.0005
    ensures -0.0005 / v <= d / v <= 0.0005 / v
  {
  }
}
