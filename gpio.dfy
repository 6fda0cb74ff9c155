/** The socket-side view of the microcontroller's digital pins, as the IC tester
    drives and samples them.

    A pin is described the way the AVR port hardware holds it: a data-direction
    bit (`output`) and a port bit (`port`). On an output pin the port bit is the
    driven level; on an input pin it switches the internal pull-up. The chip in
    the socket (and the wiring around it) is an oracle: given the whole pin
    configuration it says which level a pin reads. */
module Gpio {

  datatype Level = Low | High

  function LevelOf(b: bool): Level {
    if b then High else Low
  }

  /** Digital pins 0..13 and the analog pins A0..A5 numbered 14..19. */
  const PinCount := 20

  type PinId = p: int | 0 <= p < PinCount

  datatype PinState = PinState(output: bool, port: Level)

  /** The state `pinMode(p, INPUT)` leaves: input, pull-up off. */
  const Released := PinState(false, Low)

  /** The state of a pin that is configured as an output driving `v`. */
  function Driving(v: Level): PinState {
    PinState(true, v)
  }

  type Pins = s: seq<PinState> | |s| == PinCount witness seq(PinCount, _ => Released)

  /** What a pin reads, given the configuration of all pins. */
  type Chip = (Pins, PinId) -> Level

  /** One sample: the configuration at the moment of reading, the pin read and
      the level it read. */
  datatype Probe = Probe(cfg: Pins, pin: PinId, level: Level)

  /** Two input pins of one gate, and the two levels driven onto them. */
  type PinPair = s: seq<PinId> | |s| == 2 witness [0, 1]
  type Vector = s: seq<Level> | |s| == 2 witness [Low, Low]

  /** `pinMode(p, OUTPUT)`: the port bit is kept. */
  function MakeOutput(pins: Pins, p: PinId): Pins {
    pins[p := PinState(true, pins[p].port)]
  }

  /** `digitalWrite(p, v)`: only the port bit changes, whatever the mode. */
  function DigitalWrite(pins: Pins, p: PinId, v: Level): Pins {
    pins[p := PinState(pins[p].output, v)]
  }

  /** `setInputs(pins, values)`: each of the two pins in turn is made an output
      and written. Exactly the two given pins change. */
  method SetInputs(pins: Pins, gate: PinPair, values: Vector) returns (r: Pins)
    ensures r[gate[1]] == Driving(values[1])
    ensures gate[0] != gate[1] ==> r[gate[0]] == Driving(values[0])
    ensures forall p: PinId :: p != gate[0] && p != gate[1] ==> r[p] == pins[p]
  {
    r := pins;
    for i := 0 to 2
      invariant i == 1 ==> r[gate[0]] == Driving(values[0])
      invariant i == 2 ==> r[gate[1]] == Driving(values[1])
      invariant i == 2 && gate[0] != gate[1] ==> r[gate[0]] == Driving(values[0])
      invariant forall p: PinId :: p != gate[0] && p != gate[1] ==> r[p] == pins[p]
    {
      r := MakeOutput(r, gate[i]);
      r := DigitalWrite(r, gate[i], values[i]);
    }
  }

  /** `readPin(p)`: the pin is switched to input (pull-up off) and sampled. */
  function ReadPin(chip: Chip, pins: Pins, p: PinId): (probe: Probe)
    ensures probe.pin == p && probe.cfg[p] == Released
    ensures forall q: PinId :: q != p ==> probe.cfg[q] == pins[q]
    ensures probe.level == chip(probe.cfg, p)
  {
    var cfg := pins[p := Released];
    Probe(cfg, p, chip(cfg, p))
  }

  /** Only the socket pins 2..13 differ between `a` and `b`. */
  ghost predicate SocketFrame(a: Pins, b: Pins) {
    forall p: PinId :: (p < 2 || 13 < p) ==> b[p] == a[p]
  }
}
