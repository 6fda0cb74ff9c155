/** The decision logic of the older component-tester sketch
    (Old_CPP_Versions/Component_Tester.cpp): the 4-bit code written to the
    seven-segment decoder, the common-anode probe, the resistor reading and
    the diode verdict. The board around the sketch is the same pin oracle as
    the IC tester's socket. */
module ComponentTester {
  import opened Gpio

  // ---------------------------------------------------------------- seven-segment decoder

  /** The decoder's four inputs DP2, DP3, DP4, DP5, least significant first. */
  const DecoderPins: seq<PinId> := [7, 2, 1, 6]

  /** Bit k of `num`, found by halving k times. The floor division gives the
      two's-complement bit for negative `num` as well, so `num & (1 << k)` is
      nonzero exactly when this bit is set, and `digitalWrite` drives HIGH for
      any nonzero value. */
  function Bit(num: int, k: nat): Level
    decreases k
  {
    if k == 0 then LevelOf(num % 2 == 1) else Bit(num / 2, k - 1)
  }

  /** `displayHex(num)`: the four bits written to the decoder pins in turn. */
  function DisplayHex(pins: Pins, num: int): (r: Pins)
    ensures forall k :: 0 <= k < 4 ==> r[DecoderPins[k]] == PinState(pins[DecoderPins[k]].output, Bit(num, k))
    ensures forall p: PinId :: p !in DecoderPins ==> r[p] == pins[p]
  {
    var p2 := DigitalWrite(pins, DecoderPins[0], Bit(num, 0));
    var p3 := DigitalWrite(p2, DecoderPins[1], Bit(num, 1));
    var p4 := DigitalWrite(p3, DecoderPins[2], Bit(num, 2));
    DigitalWrite(p4, DecoderPins[3], Bit(num, 3))
  }

  function Weight(v: Level, mask: int): int {
    if v == High then mask else 0
  }

  /** The digit the decoder shows: its four inputs read as a binary number. */
  function Shown(pins: Pins): (d: int)
    ensures 0 <= d < 16
  {
    Weight(pins[DecoderPins[0]].port, 1) + Weight(pins[DecoderPins[1]].port, 2)
      + Weight(pins[DecoderPins[2]].port, 4) + Weight(pins[DecoderPins[3]].port, 8)
  }

  /** Halving splits off the lowest bit of a remainder modulo 2 m. */
  lemma Halve16(a: int)
    ensures a % 16 == a % 2 + 2 * ((a / 2) % 8)
  {
    var h := a / 2;
    assert a == 2 * h + a % 2;
    assert h == 8 * (h / 8) + h % 8;
    assert a == 16 * (h / 8) + (2 * (h % 8) + a % 2);
  }

  lemma Halve8(a: int)
    ensures a % 8 == a % 2 + 2 * ((a / 2) % 4)
  {
    var h := a / 2;
    assert a == 2 * h + a % 2;
    assert h == 4 * (h / 4) + h % 4;
    assert a == 8 * (h / 4) + (2 * (h % 4) + a % 2);
  }

  lemma Halve4(a: int)
    ensures a % 4 == a % 2 + 2 * ((a / 2) % 2)
  {
    var h := a / 2;
    assert a == 2 * h + a % 2;
    assert h == 2 * (h / 2) + h % 2;
    assert a == 4 * (h / 2) + (2 * (h % 2) + a % 2);
  }

  /** The four bits, weighted by their masks, add up to the low four bits. */
  lemma NibbleOfBits(num: int)
    ensures Weight(Bit(num, 0), 1) + Weight(Bit(num, 1), 2) + Weight(Bit(num, 2), 4) + Weight(Bit(num, 3), 8) == num % 16
  {
    var n1 := num / 2;
    var n2 := n1 / 2;
    var n3 := n2 / 2;
    assert Bit(num, 1) == Bit(n1, 0);
    assert Bit(num, 2) == Bit(n1, 1) == Bit(n2, 0);
    assert Bit(num, 3) == Bit(n1, 2) == Bit(n2, 1) == Bit(n3, 0);
    Halve16(num);
    Halve8(n1);
    Halve4(n2);
  }

  /** The decoder shows the low four bits of whatever was written; for a
      digit 0..15 it shows the digit itself. */
  lemma DisplayHexShows(pins: Pins, num: int)
    ensures Shown(DisplayHex(pins, num)) == num % 16
    ensures 0 <= num < 16 ==> Shown(DisplayHex(pins, num)) == num
  {
    var r := DisplayHex(pins, num);
    assert r[7].port == Bit(num, 0) && r[2].port == Bit(num, 1) && r[1].port == Bit(num, 2) && r[6].port == Bit(num, 3);
    NibbleOfBits(num);
  }

  /** `checkSevenSegment`: `displayHex(i)` for i = 0, 1, ..., 15 in turn.
      `frames[i]` is the pin state after the i-th call. */
  method CheckSevenSegment(pins0: Pins) returns (pins: Pins, frames: seq<Pins>)
    ensures |frames| == 16
    ensures frames[0] == DisplayHex(pins0, 0)
    ensures forall i :: 1 <= i < 16 ==> frames[i] == DisplayHex(frames[i - 1], i)
    ensures forall i :: 0 <= i < 16 ==> Shown(frames[i]) == i
    ensures pins == frames[15]
    ensures forall p: PinId :: p !in DecoderPins ==> pins[p] == pins0[p]
  {
    pins, frames := pins0, [];
    for i := 0 to 16
      invariant |frames| == i
      invariant i > 0 ==> frames[0] == DisplayHex(pins0, 0)
      invariant forall j :: 1 <= j < i ==> frames[j] == DisplayHex(frames[j - 1], j)
      invariant forall j :: 0 <= j < i ==> Shown(frames[j]) == j
      invariant i == 0 ==> pins == pins0
      invariant i > 0 ==> pins == frames[i - 1]
      invariant forall p: PinId :: p !in DecoderPins ==> pins[p] == pins0[p]
    {
      DisplayHexShows(pins, i);
      pins := DisplayHex(pins, i);
      ghost var before := frames;
      frames := frames + [pins];
      assert forall j :: 0 <= j < i ==> frames[j] == before[j];
      assert frames[i] == pins;
    }
  }

  // ---------------------------------------------------------------- common-anode probe

  /** The outcome of `detectCommonAnode`: the verdict, the pins after the four
      HIGH writes, and the levels sampled before `||` stopped evaluating. */
  datatype AnodeTest = AnodeTest(anode: bool, cfg: Pins, samples: seq<Level>)

  /** Reads `ps` in order and stops after the first HIGH, as a chain of `||`
      does. */
  function ReadUntilHigh(board: Chip, cfg: Pins, ps: seq<PinId>): (samples: seq<Level>)
    ensures ps == [] ==> samples == []
    ensures ps != [] ==> 1 <= |samples| <= |ps|
    ensures forall k :: 0 <= k < |samples| ==> samples[k] == board(cfg, ps[k])
    ensures forall k :: 0 <= k < |samples| - 1 ==> samples[k] == Low
    ensures |samples| < |ps| ==> samples[|samples| - 1] == High
    ensures (|samples| == |ps| && forall k :: 0 <= k < |samples| ==> samples[k] == Low)
        <==> (forall k :: 0 <= k < |ps| ==> board(cfg, ps[k]) == Low)
  {
    if ps == [] then []
    else
      var level := board(cfg, ps[0]);
      if level == High then [level]
      else
        var rest := ReadUntilHigh(board, cfg, ps[1..]);
        assert forall k :: 1 <= k < |ps| ==> ps[k] == ps[1..][k - 1];
        [level] + rest
  }

  /** `detectCommonAnode`: all four decoder pins are written HIGH and read
      back; the display is common-anode exactly when none of them samples HIGH. */
  function DetectCommonAnode(board: Chip, pins: Pins): (t: AnodeTest)
    ensures forall k :: 0 <= k < 4 ==> t.cfg[DecoderPins[k]] == PinState(pins[DecoderPins[k]].output, High)
    ensures forall p: PinId :: p !in DecoderPins ==> t.cfg[p] == pins[p]
    ensures t.anode <==> forall k :: 0 <= k < 4 ==> board(t.cfg, DecoderPins[k]) == Low
    ensures 1 <= |t.samples| <= 4
    ensures forall k :: 0 <= k < |t.samples| ==> t.samples[k] == board(t.cfg, DecoderPins[k])
    ensures forall k :: 0 <= k < |t.samples| - 1 ==> t.samples[k] == Low
    ensures |t.samples| < 4 ==> t.samples[|t.samples| - 1] == High
  {
    var p2 := DigitalWrite(pins, DecoderPins[0], High);
    var p3 := DigitalWrite(p2, DecoderPins[1], High);
    var p4 := DigitalWrite(p3, DecoderPins[2], High);
    var cfg := DigitalWrite(p4, DecoderPins[3], High);
    var samples := ReadUntilHigh(board, cfg, DecoderPins);
    AnodeTest(|samples| == 4 && samples[|samples| - 1] == Low, cfg, samples)
  }

  // ---------------------------------------------------------------- resistor

  /** A 10-bit ADC reading. */
  type AdcReading = x: int | 0 <= x <= 1023

  datatype Resistance = NoResistor | Ohms(value: real)

  /** The divider supply and the known resistor R1. */
  const Vin: real := 5.0
  const KnownResistor: real := 1000.0

  /** The divider formula of `checkResistance`, over exact reals. Only a
      nonzero reading can be divided by. */
  function DividerResistance(raw: AdcReading): real
    requires raw != 0
  {
    var vout := (raw as real * Vin) / 1023.0;
    var buffer := (Vin / vout) - 1.0;
    KnownResistor * buffer
  }

  /** `checkResistance`: a zero reading means no resistor and no division
      happens; any other reading is converted by the divider formula, which
      is R1 (1023 - raw) / raw. */
  function CheckResistance(raw: AdcReading): (r: Resistance)
    ensures r.NoResistor? <==> raw == 0
    ensures r.Ohms? ==> r.value == KnownResistor * (1023 - raw) as real / raw as real
    ensures r.Ohms? ==> r.value >= 0.0
  {
    if raw != 0 then DividerClosedForm(raw); Ohms(DividerResistance(raw)) else NoResistor
  }

  lemma DividerClosedForm(raw: AdcReading)
    requires raw != 0
    ensures DividerResistance(raw) == KnownResistor * (1023 - raw) as real / raw as real
  {
    var x := raw as real;
    var vout := (x * Vin) / 1023.0;
    assert vout * (1023.0 / x) == Vin;
    assert Vin / vout == 1023.0 / x;
    assert 1023.0 / x - 1.0 == (1023.0 - x) / x;
  }

  /** A higher reading means a smaller unknown resistor; a full-scale reading
      means none at all. */
  lemma ResistanceDecreasing(a: AdcReading, b: AdcReading)
    requires 0 < a < b
    ensures CheckResistance(a).value > CheckResistance(b).value
    ensures CheckResistance(1023) == Ohms(0.0)
  {
    var x, y := a as real, b as real;
    assert (1023.0 - x) / x > (1023.0 - y) / y by {
      assert (1023.0 - x) / x == 1023.0 / x - 1.0;
      assert (1023.0 - y) / y == 1023.0 / y - 1.0;
      assert 1023.0 / x > 1023.0 / y by {
        assert (1023.0 / x) * x == 1023.0 && (1023.0 / y) * y == 1023.0;
      }
    }
  }

  // ---------------------------------------------------------------- diode

  datatype DiodeVerdict = DiodeOk | Shorted | OpenDiode | Faulty

  /** A forward drop of a silicon junction and a blocked reverse direction. */
  predicate OkRegion(fwd: real, rev: real) {
    0.2 < fwd < 1.0 && rev > 4.0
  }

  /** Nearly no drop either way. */
  predicate ShortedRegion(fwd: real, rev: real) {
    fwd < 0.1 && rev < 0.5
  }

  /** The anode follows the supply: nothing conducts. */
  predicate OpenRegion(fwd: real) {
    fwd > 4.0
  }

  /** The verdict chain of `checkDiode`, tried in the order OK, shorted, open.
      The three regions are pairwise disjoint, so each verdict is given
      exactly on its own region, whatever the order of the tests. */
  function CheckDiode(fwd: real, rev: real): (v: DiodeVerdict)
    ensures v == DiodeOk <==> OkRegion(fwd, rev)
    ensures v == Shorted <==> ShortedRegion(fwd, rev)
    ensures v == OpenDiode <==> OpenRegion(fwd)
    ensures v == Faulty <==> !OkRegion(fwd, rev) && !ShortedRegion(fwd, rev) && !OpenRegion(fwd)
  {
    if fwd > 0.2 && fwd < 1.0 && rev > 4.0 then DiodeOk
    else if fwd < 0.1 && rev < 0.5 then Shorted
    else if fwd > 4.0 then OpenDiode
    else Faulty
  }

  /** The text `checkDiode` prints for each verdict. */
  function DiodeMessage(v: DiodeVerdict): (s: string)
    ensures |s| > 0
  {
    match v
    case DiodeOk => "Diode OK"
    case Shorted => "Shorted"
    case OpenDiode => "Open Diode"
    case Faulty => "Faulty"
  }

  /** A healthy junction, a short and an open circuit; and a forward drop in
      the OK band with a weak reverse block is faulty. */
  lemma DiodeExamples()
    ensures DiodeMessage(CheckDiode(0.6, 4.5)) == "Diode OK"
    ensures DiodeMessage(CheckDiode(0.05, 0.1)) == "Shorted"
    ensures forall rev: real :: DiodeMessage(CheckDiode(4.5, rev)) == "Open Diode"
    ensures DiodeMessage(CheckDiode(0.6, 2.0)) == "Faulty"
  {
  }
}
