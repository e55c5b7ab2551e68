/**
 * The four-relay board on the Raspberry Pi's GPIO header: each relay drives
 * one output pin, active low when the relay is inverted, and reads its state
 * back from the pin's level. The pin levels are the only state.
 */
module RelayBoard {
  import opened Wrappers
  import opened Decimals

  /** The GPIO output pins: the level last written to each. */
  class Gpio {
    var levels: map<int, int>

    constructor ()
      ensures levels == map[]
    {
      levels := map[];
    }

    /** `GPIO.input(pin)` on an output pin: the level last written, low for a pin never written. */
    function Input(pin: int): (level: int)
      reads this
      ensures pin in levels ==> level == levels[pin]
      ensures pin !in levels ==> level == 0
    {
      if pin in levels then levels[pin] else 0
    }

    /** `GPIO.output(pin, level)`: only that pin changes. */
    method Output(pin: int, level: int)
      modifies this
      ensures levels == old(levels)[pin := level]
    {
      levels := levels[pin := level];
    }
  }

  /** The level `relay_on` writes: low for an inverted relay. */
  function OnLevel(inverted: bool): (level: int)
    ensures level == 0 || level == 1
  {
    if inverted then 0 else 1
  }

  /** The level `relay_off` writes: high for an inverted relay. */
  function OffLevel(inverted: bool): (level: int)
    ensures level == 0 || level == 1
    ensures level != OnLevel(inverted)
  {
    if inverted then 1 else 0
  }

  /** `is_on` for a pin level: a high pin is on unless the relay is inverted, any other level the reverse. */
  predicate LevelIsOn(level: int, inverted: bool)
  {
    if level == 1 then !inverted else inverted
  }

  /** On a two-level pin the state and the level determine each other, in both directions. */
  lemma LevelsDecideState(level: int, inverted: bool)
    requires level == 0 || level == 1
    ensures LevelIsOn(level, inverted) <==> level == OnLevel(inverted)
    ensures !LevelIsOn(level, inverted) <==> level == OffLevel(inverted)
  {
  }

  class RelayPigPio {
    const gpio: Gpio
    /** `_pin_no`. */
    const pin: int
    /** `_inverted`. */
    const inverted: bool

    /** Sets the pin up as an output and switches the relay off. */
    constructor (gpio: Gpio, pin: int, inverted: bool)
      modifies gpio
      ensures this.gpio == gpio && this.pin == pin && this.inverted == inverted
      ensures gpio.levels == old(gpio.levels)[pin := OffLevel(inverted)]
      ensures !IsOn()
    {
      this.gpio := gpio;
      this.pin := pin;
      this.inverted := inverted;
      new;
      RelayOff();
    }

    /** `is_on`. */
    predicate IsOn()
      reads gpio
    {
      LevelIsOn(gpio.Input(pin), inverted)
    }

    /** `relay_on`: writes the on level; a second call writes the same level again. */
    method RelayOn()
      modifies gpio
      ensures gpio.levels == old(gpio.levels)[pin := OnLevel(inverted)]
      ensures IsOn()
    {
      if inverted {
        gpio.Output(pin, 0);
      } else {
        gpio.Output(pin, 1);
      }
    }

    /** `relay_off`: writes the off level; a second call writes the same level again. */
    method RelayOff()
      modifies gpio
      ensures gpio.levels == old(gpio.levels)[pin := OffLevel(inverted)]
      ensures !IsOn()
    {
      if inverted {
        gpio.Output(pin, 1);
      } else {
        gpio.Output(pin, 0);
      }
    }
  }

  /** The board's relays are on these pins, in this order. */
  const RelayPins: seq<int> := [18, 23, 24, 27]

  class RelayBoardPigPio {
    const gpio: Gpio
    /** `relay`. */
    const relay: seq<RelayPigPio>

    /** Four inverted relays, one per pin of `RelayPins`, all driving the board's GPIO. */
    predicate Valid()
    {
      |relay| == |RelayPins|
      && forall i | 0 <= i < |relay| :: relay[i].gpio == gpio && relay[i].pin == RelayPins[i] && relay[i].inverted
    }

    /** Builds the four relays, each of which switches itself off. */
    constructor (gpio: Gpio)
      modifies gpio
      ensures Valid() && this.gpio == gpio
      ensures gpio.levels == old(gpio.levels)[18 := 1][23 := 1][24 := 1][27 := 1]
      ensures forall i | 0 <= i < |relay| :: !relay[i].IsOn()
    {
      var r0 := new RelayPigPio(gpio, 18, true);
      var r1 := new RelayPigPio(gpio, 23, true);
      var r2 := new RelayPigPio(gpio, 24, true);
      var r3 := new RelayPigPio(gpio, 27, true);
      this.gpio := gpio;
      relay := [r0, r1, r2, r3];
    }
  }

  /** The four pins are distinct, so each relay has a pin of its own. */
  lemma RelayPinsDistinct()
    ensures forall i, j | 0 <= i < j < |RelayPins| :: RelayPins[i] != RelayPins[j]
  {
  }

  /** `relay_on` and `relay_off` are idempotent: a second call leaves the levels the first one wrote. */
  method CommandTwice(r: RelayPigPio, on: bool) returns (once: map<int, int>, twice: map<int, int>)
    modifies r.gpio
    ensures once == twice && r.gpio.levels == twice
    ensures r.IsOn() == on
  {
    if on {
      r.RelayOn();
      once := r.gpio.levels;
      r.RelayOn();
    } else {
      r.RelayOff();
      once := r.gpio.levels;
      r.RelayOff();
    }
    twice := r.gpio.levels;
  }

  class RelayBoardBinarySwitch {
    const board: RelayBoardPigPio
    /** `relay_index`. */
    const relayIndex: nat
    /** `_attr_is_on`; nothing until the first command. */
    var attrIsOn: Option<bool>

    constructor (board: RelayBoardPigPio, relayIndex: nat)
      ensures this.board == board && this.relayIndex == relayIndex && attrIsOn.None?
    {
      this.board := board;
      this.relayIndex := relayIndex;
      attrIsOn := None;
    }

    /** `name`. */
    function Name(): string
    {
      "Relay_" + IntToString(relayIndex)
    }

    /** `async_turn_on`: switches its relay on and records that it is on; the other relays keep their state. */
    method AsyncTurnOn()
      requires board.Valid() && relayIndex < |board.relay|
      modifies board.gpio, this
      ensures attrIsOn == Some(true) && board.relay[relayIndex].IsOn()
      ensures board.gpio.levels == old(board.gpio.levels)[RelayPins[relayIndex] := 0]
      ensures forall j | 0 <= j < |board.relay| && j != relayIndex :: board.relay[j].IsOn() == old(board.relay[j].IsOn())
    {
      board.relay[relayIndex].RelayOn();
      attrIsOn := Some(true);
      RelayPinsDistinct();
    }

    /** `async_turn_off`: switches its relay off and records that it is off; the other relays keep their state. */
    method AsyncTurnOff()
      requires board.Valid() && relayIndex < |board.relay|
      modifies board.gpio, this
      ensures attrIsOn == Some(false) && !board.relay[relayIndex].IsOn()
      ensures board.gpio.levels == old(board.gpio.levels)[RelayPins[relayIndex] := 1]
      ensures forall j | 0 <= j < |board.relay| && j != relayIndex :: board.relay[j].IsOn() == old(board.relay[j].IsOn())
    {
      board.relay[relayIndex].RelayOff();
      attrIsOn := Some(false);
      RelayPinsDistinct();
    }
  }

  /** Switches on different relays have different names. */
  lemma NamesDistinct(a: RelayBoardBinarySwitch, b: RelayBoardBinarySwitch)
    requires a.relayIndex != b.relayIndex
    ensures a.Name() != b.Name()
  {
    if a.Name() == b.Name() {
      assert a.Name()[6..] == IntToString(a.relayIndex);
      assert b.Name()[6..] == IntToString(b.relayIndex);
      IntToStringInjective(a.relayIndex, b.relayIndex);
    }
  }
}
