/** The logic-IC classifier, `testLogicIC` (IC_Tester.cpp, lines 86-132): the
    four truth-table vectors are applied to the common layout and to the NOR
    layout, the outputs are compared with the five tables, the first family in
    priority order whose table matches entirely wins, and only when none does
    the six inverter channels are toggled. */
module Classifier {
  import opened Gpio
  import opened PinMaps
  import opened TruthTables
  import opened Passes

  datatype IcType = Nand74LS00 | And74LS08 | Or74LS32 | Xor74LS86 | Nor74LS02 | Inv74LS04 | Unknown

  /** The text the classifier returns and stores in `detectedIC`. */
  function IcName(t: IcType): string {
    match t
    case Nand74LS00 => "74LS00 NAND"
    case And74LS08 => "74LS08 AND"
    case Or74LS32 => "74LS32 OR"
    case Xor74LS86 => "74LS86 XOR"
    case Nor74LS02 => "74LS02 NOR"
    case Inv74LS04 => "74LS04 INV"
    case Unknown => "Unknown"
  }

  function FamilyType(f: Family): IcType {
    match f
    case Nand => Nand74LS00
    case And => And74LS08
    case Or => Or74LS32
    case Xor => Xor74LS86
    case Nor => Nor74LS02
  }

  /** Both samples of one inverter channel: output after input LOW, then after
      input HIGH. */
  datatype Toggle = Toggle(low: Probe, high: Probe)

  /** Every sample `testLogicIC` takes, pass by pass. */
  datatype Trace = Trace(first: seq<Probe>, nor: seq<Probe>, inverter: seq<Toggle>)

  function Levels(probes: seq<Probe>): (r: seq<Level>)
    ensures |r| == |probes| && forall i :: 0 <= i < |probes| ==> r[i] == probes[i].level
  {
    seq(|probes|, i requires 0 <= i < |probes| => probes[i].level)
  }

  function ToggleLevels(toggles: seq<Toggle>): (r: seq<(Level, Level)>)
    ensures |r| == |toggles| && forall i :: 0 <= i < |toggles| ==> r[i] == (toggles[i].low.level, toggles[i].high.level)
  {
    seq(|toggles|, i requires 0 <= i < |toggles| => (toggles[i].low.level, toggles[i].high.level))
  }

  /** The samples taken so far agree with the start of a table. */
  predicate AgreesWith(probes: seq<Probe>, table: seq<Level>) {
    |probes| <= |table| && forall k :: 0 <= k < |probes| ==> probes[k].level == table[k]
  }

  lemma AgreesWithAppend(probes: seq<Probe>, p: Probe, table: seq<Level>)
    requires |probes| < |table|
    ensures AgreesWith(probes + [p], table) <==> AgreesWith(probes, table) && p.level == table[|probes|]
  {
    assert forall k :: 0 <= k < |probes| ==> (probes + [p])[k] == probes[k];
    assert (probes + [p])[|probes|] == p;
  }

  lemma AgreesWithIsMatch(probes: seq<Probe>, f: Family)
    requires |probes| == |TestValues|
    ensures AgreesWith(probes, Expected(f)) <==> Matches(f, Levels(probes))
  {
  }

  predicate AnyCommonMatch(first: seq<Level>) {
    Matches(Nand, first) || Matches(And, first) || Matches(Or, first) || Matches(Xor, first)
  }

  predicate AnyGateMatch(first: seq<Level>, nor: seq<Level>) {
    AnyCommonMatch(first) || Matches(Nor, nor)
  }

  /** One channel answered HIGH to LOW and LOW to HIGH. */
  predicate Complements(t: Toggle) {
    t.low.level == High && t.high.level == Low
  }

  /** All six channels answer HIGH to LOW and LOW to HIGH. */
  predicate InverterPasses(samples: seq<(Level, Level)>) {
    |samples| == |HexInvInputs| && forall k :: 0 <= k < |samples| ==> samples[k] == (High, Low)
  }

  /** The decision the classifier makes from its samples. The four common-layout
      families are recognised by their own table alone, because the tables
      differ pairwise; NOR only when none of them matched; the inverter only
      when no two-input family matched. */
  function Classify(first: seq<Level>, nor: seq<Level>, inv: seq<(Level, Level)>): (t: IcType)
    ensures t == Nand74LS00 <==> Matches(Nand, first)
    ensures t == And74LS08 <==> Matches(And, first)
    ensures t == Or74LS32 <==> Matches(Or, first)
    ensures t == Xor74LS86 <==> Matches(Xor, first)
    ensures t == Nor74LS02 <==> !AnyCommonMatch(first) && Matches(Nor, nor)
    ensures t == Inv74LS04 <==> !AnyGateMatch(first, nor) && InverterPasses(inv)
    ensures t == Unknown <==> !AnyGateMatch(first, nor) && !InverterPasses(inv)
  {
    AtMostOneCommonMatch(Nand, And, first);
    AtMostOneCommonMatch(Nand, Or, first);
    AtMostOneCommonMatch(Nand, Xor, first);
    AtMostOneCommonMatch(And, Or, first);
    AtMostOneCommonMatch(And, Xor, first);
    AtMostOneCommonMatch(Or, Xor, first);
    if Matches(Nand, first) then Nand74LS00
    else if Matches(And, first) then And74LS08
    else if Matches(Or, first) then Or74LS32
    else if Matches(Xor, first) then Xor74LS86
    else if Matches(Nor, nor) then Nor74LS02
    else if InverterPasses(inv) then Inv74LS04
    else Unknown
  }

  /** Priority: a response matching a common-layout table and the NOR table
      (possible, since the NOR pass samples other pins) is reported as the
      common-layout family. */
  lemma CommonLayoutBeatsNor(f: Family, first: seq<Level>, nor: seq<Level>, inv: seq<(Level, Level)>)
    requires OnCommonLayout(f) && Matches(f, first) && Matches(Nor, nor)
    ensures Classify(first, nor, inv) == FamilyType(f)
  {
  }

  /** A chip whose gates on a layout behave as ideal gates of a family is
      reported as that family (for NOR: when the common-layout samples match
      none of the four tables). */
  lemma IdealGateRecognised(f: Family, first: seq<Level>, nor: seq<Level>, inv: seq<(Level, Level)>)
    requires f == Nor ==> !AnyCommonMatch(first)
    requires |first| == 4 && |nor| == 4
    requires forall i :: 0 <= i < 4 ==>
      (if f == Nor then nor[i] else first[i]) == GateOutput(f, TestValues[i][0], TestValues[i][1])
    ensures Classify(first, nor, inv) == FamilyType(f)
  {
    if f == Nor {
      MatchesIdealGate(f, nor);
    } else {
      MatchesIdealGate(f, first);
    }
  }

  /** One channel of the scan: LOW written to input i (after making it an
      output when `setsMode`), output i sampled, then HIGH written and output
      i sampled again. */
  method ToggleChannel(chip: Chip, start: Pins, pins: Pins, i: int, setsMode: bool) returns (t: Toggle)
    requires 0 <= i < |HexInvInputs|
    requires ChannelState(start, pins, HexInvInputs, HexInvOutputs, i, i, setsMode)
    ensures ChannelProbe(chip, start, HexInvInputs, HexInvOutputs, i, Low, setsMode, t.low)
    ensures ChannelProbe(chip, start, HexInvInputs, HexInvOutputs, i, High, setsMode, t.high)
    ensures ChannelState(start, t.high.cfg, HexInvInputs, HexInvOutputs, i + 1, i + 1, setsMode)
  {
    Layouts();
    var written := if setsMode then MakeOutput(pins, HexInvInputs[i]) else pins;
    written := DigitalWrite(written, HexInvInputs[i], Low);
    var low := ReadPin(chip, written, HexInvOutputs[i]);
    ChannelStep(start, pins, written, low.cfg, HexInvInputs, HexInvOutputs, i, Low, setsMode, true);
    written := DigitalWrite(low.cfg, HexInvInputs[i], High);
    var high := ReadPin(chip, written, HexInvOutputs[i]);
    ChannelStep(start, low.cfg, written, high.cfg, HexInvInputs, HexInvOutputs, i, High, setsMode, false);
    t := Toggle(low, high);
  }

  /** The hex-inverter scan as the source writes it: the inverter inputs are
      written without being made outputs first, so an input left in INPUT mode
      by an earlier `readPin` only has its pull-up switched. */
  method HexInverterScanAsWritten(chip: Chip, pins0: Pins) returns (ok: bool, pins: Pins, toggles: seq<Toggle>)
    ensures |toggles| == |HexInvInputs|
    ensures forall i :: 0 <= i < |toggles| ==>
      && ChannelProbe(chip, pins0, HexInvInputs, HexInvOutputs, i, Low, false, toggles[i].low)
      && ChannelProbe(chip, pins0, HexInvInputs, HexInvOutputs, i, High, false, toggles[i].high)
    ensures ok <==> InverterPasses(ToggleLevels(toggles))
    ensures ChannelState(pins0, pins, HexInvInputs, HexInvOutputs, |HexInvInputs|, |HexInvInputs|, false)
    ensures pins == toggles[5].high.cfg
  {
    ok, pins, toggles := true, pins0, [];
    for i := 0 to 6
      invariant |toggles| == i
      invariant forall j :: 0 <= j < i ==>
        && ChannelProbe(chip, pins0, HexInvInputs, HexInvOutputs, j, Low, false, toggles[j].low)
        && ChannelProbe(chip, pins0, HexInvInputs, HexInvOutputs, j, High, false, toggles[j].high)
      invariant ChannelState(pins0, pins, HexInvInputs, HexInvOutputs, i, i, false)
      invariant i > 0 ==> pins == toggles[i - 1].high.cfg
      invariant ok <==> forall j :: 0 <= j < i ==> Complements(toggles[j])
    {
      var t := ToggleChannel(chip, pins0, pins, i, false);
      if t.low.level != High { ok := false; }
      if t.high.level != Low { ok := false; }
      pins := t.high.cfg;
      ghost var before := toggles;
      toggles := toggles + [t];
      assert forall j :: 0 <= j < i ==> toggles[j] == before[j];
      assert Complements(toggles[i]) <==> t.low.level == High && t.high.level == Low;
    }
  }

  /** The NOR pass reads pins 2 and 13 last (they are NOR outputs), leaving
      them inputs with the pull-up off. These are the inputs of inverter
      channels 0 and 5, so in the scan as written their LOW stimulus is a
      floating input, never a driven LOW. */
  lemma AsWrittenScanLeavesInputsFloating(chip: Chip, start: Pins, nor: seq<Probe>, toggles: seq<Toggle>)
    requires |nor| == 4 && GateProbes(chip, start, NorInputs, NorOutputs, TestValues, nor)
    requires |toggles| == 6
    requires forall i :: 0 <= i < 6 ==> ChannelProbe(chip, nor[3].cfg, HexInvInputs, HexInvOutputs, i, Low, false, toggles[i].low)
    ensures toggles[0].low.cfg[HexInvInputs[0]] == Released
    ensures toggles[5].low.cfg[HexInvInputs[5]] == Released
    ensures Released != Driving(Low)
  {
    assert GateProbe(chip, start, NorInputs, NorOutputs, TestValues, 3, nor[3]);
    assert GateSettled(nor[3].cfg, NorInputs, NorOutputs, TestValues, 0);
    assert GateSettled(nor[3].cfg, NorInputs, NorOutputs, TestValues, 3);
    assert ChannelProbe(chip, nor[3].cfg, HexInvInputs, HexInvOutputs, 0, Low, false, toggles[0].low);
    assert ChannelProbe(chip, nor[3].cfg, HexInvInputs, HexInvOutputs, 5, Low, false, toggles[5].low);
  }

  /** The hex-inverter scan with each input made an output before it is
      written, so every channel sees a driven LOW and then a driven HIGH. */
  method HexInverterScan(chip: Chip, pins0: Pins) returns (ok: bool, pins: Pins, toggles: seq<Toggle>)
    ensures |toggles| == |HexInvInputs|
    ensures forall i :: 0 <= i < |toggles| ==>
      && ChannelProbe(chip, pins0, HexInvInputs, HexInvOutputs, i, Low, true, toggles[i].low)
      && ChannelProbe(chip, pins0, HexInvInputs, HexInvOutputs, i, High, true, toggles[i].high)
    ensures forall i :: 0 <= i < |toggles| ==>
      toggles[i].low.cfg[HexInvInputs[i]] == Driving(Low) && toggles[i].high.cfg[HexInvInputs[i]] == Driving(High)
    ensures ok <==> InverterPasses(ToggleLevels(toggles))
    ensures ChannelState(pins0, pins, HexInvInputs, HexInvOutputs, |HexInvInputs|, |HexInvInputs|, true)
    ensures pins == toggles[5].high.cfg
  {
    ok, pins, toggles := true, pins0, [];
    for i := 0 to 6
      invariant |toggles| == i
      invariant forall j :: 0 <= j < i ==>
        && ChannelProbe(chip, pins0, HexInvInputs, HexInvOutputs, j, Low, true, toggles[j].low)
        && ChannelProbe(chip, pins0, HexInvInputs, HexInvOutputs, j, High, true, toggles[j].high)
      invariant ChannelState(pins0, pins, HexInvInputs, HexInvOutputs, i, i, true)
      invariant i > 0 ==> pins == toggles[i - 1].high.cfg
      invariant ok <==> forall j :: 0 <= j < i ==> Complements(toggles[j])
    {
      var t := ToggleChannel(chip, pins0, pins, i, true);
      if t.low.level != High { ok := false; }
      if t.high.level != Low { ok := false; }
      pins := t.high.cfg;
      ghost var before := toggles;
      toggles := toggles + [t];
      assert forall j :: 0 <= j < i ==> toggles[j] == before[j];
      assert Complements(toggles[i]) <==> t.low.level == High && t.high.level == Low;
    }
  }

  /** The first loop of `testLogicIC`: vector i on gate i of the common
      layout, output i sampled, and each of the four flags cleared on the
      first sample that differs from its family's table. */
  method CommonLayoutPass(chip: Chip, pins0: Pins)
    returns (pins: Pins, first: seq<Probe>, isNAND: bool, isAND: bool, isOR: bool, isXOR: bool)
    ensures |first| == 4 && GateProbes(chip, pins0, InputPins, OutputPins, TestValues, first)
    ensures isNAND == Matches(Nand, Levels(first)) && isAND == Matches(And, Levels(first))
    ensures isOR == Matches(Or, Levels(first)) && isXOR == Matches(Xor, Levels(first))
    ensures pins == first[3].cfg
  {
    Layouts();
    var expectedNAND, expectedAND, expectedOR, expectedXOR := Expected(Nand), Expected(And), Expected(Or), Expected(Xor);
    isNAND, isAND, isOR, isXOR := true, true, true, true;
    pins, first := pins0, [];
    for i := 0 to 4
      invariant |first| == i
      invariant GateProbes(chip, pins0, InputPins, OutputPins, TestValues, first)
      invariant GateState(pins0, pins, InputPins, OutputPins, TestValues, i)
      invariant i > 0 ==> pins == first[i - 1].cfg
      invariant isNAND == AgreesWith(first, expectedNAND)
      invariant isAND == AgreesWith(first, expectedAND)
      invariant isOR == AgreesWith(first, expectedOR)
      invariant isXOR == AgreesWith(first, expectedXOR)
    {
      var driven := SetInputs(pins, InputPins[i], TestValues[i]);
      var probe := ReadPin(chip, driven, OutputPins[i]);
      GateStep(pins0, pins, driven, probe.cfg, InputPins, OutputPins, TestValues, i);
      GateProbesAppend(chip, pins0, InputPins, OutputPins, TestValues, first, probe);
      var result := probe.level;
      if result != expectedNAND[i] { isNAND := false; }
      if result != expectedAND[i] { isAND := false; }
      if result != expectedOR[i] { isOR := false; }
      if result != expectedXOR[i] { isXOR := false; }
      AgreesWithAppend(first, probe, expectedNAND);
      AgreesWithAppend(first, probe, expectedAND);
      AgreesWithAppend(first, probe, expectedOR);
      AgreesWithAppend(first, probe, expectedXOR);
      first := first + [probe];
      pins := probe.cfg;
    }
    AgreesWithIsMatch(first, Nand);
    AgreesWithIsMatch(first, And);
    AgreesWithIsMatch(first, Or);
    AgreesWithIsMatch(first, Xor);
  }

  /** The second loop of `testLogicIC`: the same four vectors on the NOR
      layout, one flag. */
  method NorPass(chip: Chip, pins0: Pins) returns (pins: Pins, nor: seq<Probe>, isNOR: bool)
    ensures |nor| == 4 && GateProbes(chip, pins0, NorInputs, NorOutputs, TestValues, nor)
    ensures isNOR == Matches(Nor, Levels(nor))
    ensures pins == nor[3].cfg
  {
    Layouts();
    var expectedNOR := Expected(Nor);
    isNOR := true;
    pins, nor := pins0, [];
    for i := 0 to 4
      invariant |nor| == i
      invariant GateProbes(chip, pins0, NorInputs, NorOutputs, TestValues, nor)
      invariant GateState(pins0, pins, NorInputs, NorOutputs, TestValues, i)
      invariant i > 0 ==> pins == nor[i - 1].cfg
      invariant isNOR == AgreesWith(nor, expectedNOR)
    {
      var driven := SetInputs(pins, NorInputs[i], TestValues[i]);
      var probe := ReadPin(chip, driven, NorOutputs[i]);
      GateStep(pins0, pins, driven, probe.cfg, NorInputs, NorOutputs, TestValues, i);
      GateProbesAppend(chip, pins0, NorInputs, NorOutputs, TestValues, nor, probe);
      if probe.level != expectedNOR[i] { isNOR := false; }
      AgreesWithAppend(nor, probe, expectedNOR);
      nor := nor + [probe];
      pins := probe.cfg;
    }
    AgreesWithIsMatch(nor, Nor);
  }

  /** `testLogicIC`: both passes, the priority chain NAND, AND, OR, XOR, NOR,
      and the inverter scan only when no flag is set. The samples of each pass
      are returned with the pin configuration each was read under. */
  method TestLogicIC(chip: Chip, pins0: Pins) returns (name: string, pins: Pins, trace: Trace)
    ensures |trace.first| == 4 && GateProbes(chip, pins0, InputPins, OutputPins, TestValues, trace.first)
    ensures |trace.nor| == 4 && GateProbes(chip, trace.first[3].cfg, NorInputs, NorOutputs, TestValues, trace.nor)
    ensures trace.inverter == [] <==> AnyGateMatch(Levels(trace.first), Levels(trace.nor))
    ensures trace.inverter != [] ==>
      && |trace.inverter| == |HexInvInputs|
      && forall i :: 0 <= i < |trace.inverter| ==>
           && ChannelProbe(chip, trace.nor[3].cfg, HexInvInputs, HexInvOutputs, i, Low, true, trace.inverter[i].low)
           && ChannelProbe(chip, trace.nor[3].cfg, HexInvInputs, HexInvOutputs, i, High, true, trace.inverter[i].high)
    ensures name == IcName(Classify(Levels(trace.first), Levels(trace.nor), ToggleLevels(trace.inverter)))
    ensures pins == if trace.inverter == [] then trace.nor[3].cfg else trace.inverter[5].high.cfg
  {
    var first, nor, isNAND, isAND, isOR, isXOR, isNOR;
    pins, first, isNAND, isAND, isOR, isXOR := CommonLayoutPass(chip, pins0);
    pins, nor, isNOR := NorPass(chip, pins);

    trace := Trace(first, nor, []);
    if isNAND { name := "74LS00 NAND"; return; }
    if isAND { name := "74LS08 AND"; return; }
    if isOR { name := "74LS32 OR"; return; }
    if isXOR { name := "74LS86 XOR"; return; }
    if isNOR { name := "74LS02 NOR"; return; }

    var isHexInv, toggles;
    isHexInv, pins, toggles := HexInverterScan(chip, pins);
    trace := Trace(first, nor, toggles);
    if isHexInv { name := "74LS04 INV"; return; }
    name := "Unknown";
  }
}
