/** The IC tester's persistent state (IC_Tester.cpp, lines 5-8, 22-53): the
    pin configuration the sketch leaves behind between button presses and the
    IC name `detectedIC` that the test button stores and the pin-check button
    reads. */
module Sketch {
  import opened Gpio
  import opened PinMaps
  import opened TruthTables
  import opened Passes
  import opened Classifier
  import opened PinCheck

  /** The three buttons on A0, A1 and A2. */
  const ResetButton: PinId := 14
  const TestButtonPin: PinId := 15
  const PinCheckButtonPin: PinId := 16

  /** A pin configured with `INPUT_PULLUP`. */
  const PullUp := PinState(false, High)

  /** The names `detectedIC` can hold: the initial empty name or any name the
      classifier returns. */
  ghost predicate StoredName(s: string) {
    s == "" || exists t: IcType :: s == IcName(t)
  }

  class IcTester {
    const chip: Chip
    var pins: Pins
    var detectedIC: string

    ghost predicate Valid()
      reads this
    {
      StoredName(detectedIC)
    }

    /** Power-up and `setup`: every pin starts as an input without pull-up,
        then the three buttons get their pull-ups; no IC has been detected. */
    constructor(chip: Chip)
      ensures Valid()
      ensures this.chip == chip && detectedIC == ""
      ensures pins[ResetButton] == PullUp && pins[TestButtonPin] == PullUp && pins[PinCheckButtonPin] == PullUp
      ensures forall p: PinId :: p != ResetButton && p != TestButtonPin && p != PinCheckButtonPin ==> pins[p] == Released
    {
      this.chip := chip;
      var reset: Pins := seq(PinCount, _ => Released);
      pins := reset[TestButtonPin := PullUp][ResetButton := PullUp][PinCheckButtonPin := PullUp];
      detectedIC := "";
    }

    /** The test button: `testLogicIC` runs on the current pins and its
        result replaces `detectedIC`. The inverter channels are toggled by the
        corrected scan, with each input made an output before it is written. */
    method TestButton() returns (trace: Trace)
      requires Valid()
      modifies this
      ensures Valid()
      ensures detectedIC == IcName(Classify(Levels(trace.first), Levels(trace.nor), ToggleLevels(trace.inverter)))
      ensures |trace.first| == 4 && GateProbes(chip, old(pins), InputPins, OutputPins, TestValues, trace.first)
      ensures |trace.nor| == 4 && GateProbes(chip, trace.first[3].cfg, NorInputs, NorOutputs, TestValues, trace.nor)
      ensures trace.inverter == [] <==> AnyGateMatch(Levels(trace.first), Levels(trace.nor))
      ensures trace.inverter != [] ==>
        && |trace.inverter| == |HexInvInputs|
        && forall i :: 0 <= i < |trace.inverter| ==>
             && ChannelProbe(chip, trace.nor[3].cfg, HexInvInputs, HexInvOutputs, i, Low, true, trace.inverter[i].low)
             && ChannelProbe(chip, trace.nor[3].cfg, HexInvInputs, HexInvOutputs, i, High, true, trace.inverter[i].high)
      ensures pins == if trace.inverter == [] then trace.nor[3].cfg else trace.inverter[5].high.cfg
    {
      var name;
      name, pins, trace := TestLogicIC(chip, pins);
      detectedIC := name;
    }

    /** The pin-check button, honoured only while `detectedIC` is not
        "Unknown": `checkPins(detectedIC)` then gives "All Good" or "Faulty"
        for any classified family, and nothing for the empty name. The stored
        name is kept. */
    method PinCheckButton() returns (verdict: Option<string>, probes: seq<Probe>)
      requires Valid()
      modifies this
      ensures Valid() && detectedIC == old(detectedIC)
      ensures verdict.Some? <==> exists t: IcType :: t != Unknown && detectedIC == IcName(t)
      ensures verdict.None? ==> pins == old(pins) && probes == []
      ensures verdict.Some? ==> SelectCheck(detectedIC).Some?
      ensures verdict.Some? ==> CheckRun(SelectCheck(detectedIC).value, chip, old(pins), pins, probes)
      ensures verdict.Some? ==>
        verdict == Some(if AllInstancesPass(SelectCheck(detectedIC).value, probes) then "All Good" else "Faulty")
    {
      SelectCheckOfClassification(Unknown);
      if detectedIC != "Unknown" {
        verdict, pins, probes := CheckPins(detectedIC, chip, pins);
        if detectedIC != "" {
          var t :| detectedIC == IcName(t);
          SelectCheckOfClassification(t);
        }
      } else {
        verdict, probes := None, [];
      }
    }
  }
}
