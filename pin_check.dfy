/** The pin-integrity check (IC_Tester.cpp, lines 134-195): once a family is
    known, every gate instance is re-stimulated with one vector and must give
    the family's level; the first instance that does not ends the check. */
module PinCheck {
  import opened Gpio
  import opened PinMaps
  import opened TruthTables
  import opened Passes
  import opened Classifier

  datatype Option<T> = None | Some(value: T)

  datatype CheckKind = GateCheck(family: Family) | InverterCheck

  /** The single vector each two-input check applies: HH for NAND and AND,
      LL for OR, XOR and NOR. */
  function CheckVector(f: Family): Vector {
    match f
    case Nand => [High, High]
    case And => [High, High]
    case Or => [Low, Low]
    case Xor => [Low, Low]
    case Nor => [Low, Low]
  }

  /** The level every instance must give under that vector. */
  function CheckLevel(f: Family): Level {
    match f
    case Nand => Low
    case And => High
    case Or => Low
    case Xor => Low
    case Nor => High
  }

  /** The level each check expects is the ideal gate's response to its vector,
      and it is the entry of the classification table for that vector. */
  lemma CheckLevelIsGateOutput(f: Family)
    ensures CheckLevel(f) == GateOutput(f, CheckVector(f)[0], CheckVector(f)[1])
    ensures var i := if CheckVector(f) == [High, High] then 3 else 0;
            TestValues[i] == CheckVector(f) && Expected(f)[i] == CheckLevel(f)
  {
  }

  function CheckGates(f: Family): seq<PinPair> {
    if f == Nor then NorInputs else InputPins
  }

  function CheckOutputs(f: Family): seq<PinId> {
    if f == Nor then NorOutputs else OutputPins
  }

  function Repeat4(v: Vector): seq<Vector> {
    [v, v, v, v]
  }

  /** `testAllNANDGates`, `testAllANDGates`, `testAllORGates`,
      `testAllXORGates`, `testAllNORGates`: the family's vector on each gate in
      turn, stopping at the first output that is not the family's level. */
  method TestAllGates(f: Family, chip: Chip, pins0: Pins) returns (ok: bool, pins: Pins, probes: seq<Probe>)
    ensures 1 <= |probes| <= 4
    ensures GateProbes(chip, pins0, CheckGates(f), CheckOutputs(f), Repeat4(CheckVector(f)), probes)
    ensures forall k :: 0 <= k < |probes| - 1 ==> probes[k].level == CheckLevel(f)
    ensures ok <==> |probes| == 4 && forall k :: 0 <= k < 4 ==> probes[k].level == CheckLevel(f)
    ensures !ok ==> probes[|probes| - 1].level != CheckLevel(f)
    ensures pins == probes[|probes| - 1].cfg
  {
    Layouts();
    var gates, outs, vectors := CheckGates(f), CheckOutputs(f), Repeat4(CheckVector(f));
    pins, probes := pins0, [];
    for i := 0 to 4
      invariant |probes| == i
      invariant GateProbes(chip, pins0, gates, outs, vectors, probes)
      invariant GateState(pins0, pins, gates, outs, vectors, i)
      invariant i > 0 ==> pins == probes[i - 1].cfg
      invariant forall k :: 0 <= k < i ==> probes[k].level == CheckLevel(f)
    {
      var values := CheckVector(f);
      var driven := SetInputs(pins, gates[i], values);
      var probe := ReadPin(chip, driven, outs[i]);
      GateStep(pins0, pins, driven, probe.cfg, gates, outs, vectors, i);
      GateProbesAppend(chip, pins0, gates, outs, vectors, probes, probe);
      probes := probes + [probe];
      pins := probe.cfg;
      assert probes[i] == probe;
      if probe.level != CheckLevel(f) {
        ok := false;
        return;
      }
    }
    ok := true;
  }

  /** `testAllHexInverters`: HIGH written to each inverter input (without
      setting its mode) and LOW required on its output, stopping at the first
      channel that fails. */
  method TestAllHexInverters(chip: Chip, pins0: Pins) returns (ok: bool, pins: Pins, probes: seq<Probe>)
    ensures 1 <= |probes| <= |HexInvInputs|
    ensures forall i :: 0 <= i < |probes| ==>
      ChannelProbe(chip, pins0, HexInvInputs, HexInvOutputs, i, High, false, probes[i])
    ensures forall k :: 0 <= k < |probes| - 1 ==> probes[k].level == Low
    ensures ok <==> |probes| == |HexInvInputs| && forall k :: 0 <= k < |probes| ==> probes[k].level == Low
    ensures !ok ==> probes[|probes| - 1].level != Low
    ensures pins == probes[|probes| - 1].cfg
  {
    Layouts();
    pins, probes := pins0, [];
    for i := 0 to 6
      invariant |probes| == i
      invariant forall j :: 0 <= j < i ==> ChannelProbe(chip, pins0, HexInvInputs, HexInvOutputs, j, High, false, probes[j])
      invariant ChannelState(pins0, pins, HexInvInputs, HexInvOutputs, i, i, false)
      invariant i > 0 ==> pins == probes[i - 1].cfg
      invariant forall k :: 0 <= k < i ==> probes[k].level == Low
    {
      var written := DigitalWrite(pins, HexInvInputs[i], High);
      var probe := ReadPin(chip, written, HexInvOutputs[i]);
      ChannelStep(pins0, pins, written, probe.cfg, HexInvInputs, HexInvOutputs, i, High, false, true);
      ghost var before := probes;
      probes := probes + [probe];
      assert forall j :: 0 <= j < i ==> probes[j] == before[j];
      pins := probe.cfg;
      assert probes[i] == probe;
      if probe.level != Low {
        ok := false;
        return;
      }
    }
    ok := true;
  }

  predicate StartsWith(s: string, prefix: string) {
    |prefix| <= |s| && s[..|prefix|] == prefix
  }

  /** The prefixes `checkPins` tests, in its order, with the check each selects. */
  const CheckPrefixes: seq<(string, CheckKind)> := [
    ("74LS00", GateCheck(Nand)), ("74LS08", GateCheck(And)), ("74LS32", GateCheck(Or)),
    ("74LS86", GateCheck(Xor)), ("74LS04", InverterCheck), ("74LS02", GateCheck(Nor))]

  /** The check `checkPins` runs for a stored IC name: the first prefix that
      matches decides; a name with none of the six prefixes selects nothing. */
  function SelectCheck(icType: string): (c: Option<CheckKind>)
    ensures c.None? <==> forall k :: 0 <= k < |CheckPrefixes| ==> !StartsWith(icType, CheckPrefixes[k].0)
    ensures c.Some? ==> exists k :: 0 <= k < |CheckPrefixes| && StartsWith(icType, CheckPrefixes[k].0) && c.value == CheckPrefixes[k].1
  {
    assert forall k :: 0 <= k < |CheckPrefixes| ==>
      CheckPrefixes[k].0 in {"74LS00", "74LS08", "74LS32", "74LS86", "74LS04", "74LS02"};
    if StartsWith(icType, "74LS00") then assert StartsWith(icType, CheckPrefixes[0].0); Some(GateCheck(Nand))
    else if StartsWith(icType, "74LS08") then assert StartsWith(icType, CheckPrefixes[1].0); Some(GateCheck(And))
    else if StartsWith(icType, "74LS32") then assert StartsWith(icType, CheckPrefixes[2].0); Some(GateCheck(Or))
    else if StartsWith(icType, "74LS86") then assert StartsWith(icType, CheckPrefixes[3].0); Some(GateCheck(Xor))
    else if StartsWith(icType, "74LS04") then assert StartsWith(icType, CheckPrefixes[4].0); Some(InverterCheck)
    else if StartsWith(icType, "74LS02") then assert StartsWith(icType, CheckPrefixes[5].0); Some(GateCheck(Nor))
    else None
  }

  /** The check that belongs to each classification result. */
  function CheckFor(t: IcType): Option<CheckKind> {
    match t
    case Nand74LS00 => Some(GateCheck(Nand))
    case And74LS08 => Some(GateCheck(And))
    case Or74LS32 => Some(GateCheck(Or))
    case Xor74LS86 => Some(GateCheck(Xor))
    case Nor74LS02 => Some(GateCheck(Nor))
    case Inv74LS04 => Some(InverterCheck)
    case Unknown => None
  }

  /** Every name the classifier can store selects the check of its own family;
      "Unknown" and the initial empty name select none. */
  lemma SelectCheckOfClassification(t: IcType)
    ensures SelectCheck(IcName(t)) == CheckFor(t)
    ensures SelectCheck("") == None
  {
    match t
    case Nand74LS00 => assert IcName(t)[..6] == "74LS00";
    case And74LS08 => assert IcName(t)[..6] == "74LS08";
    case Or74LS32 => assert IcName(t)[..6] == "74LS32";
    case Xor74LS86 => assert IcName(t)[..6] == "74LS86";
    case Nor74LS02 => assert IcName(t)[..6] == "74LS02";
    case Inv74LS04 => assert IcName(t)[..6] == "74LS04";
    case Unknown => assert IcName(t)[..6] == "Unknow";
  }

  /** The number of instances a check samples when none of them fails. */
  function InstanceCount(c: CheckKind): nat {
    match c
    case GateCheck(_) => 4
    case InverterCheck => |HexInvInputs|
  }

  /** One sample of the check gave the level the check expects. */
  predicate InstancePasses(c: CheckKind, p: Probe) {
    match c
    case GateCheck(f) => p.level == CheckLevel(f)
    case InverterCheck => p.level == Low
  }

  /** Every instance of the selected check was sampled and gave the expected level. */
  predicate AllInstancesPass(c: CheckKind, probes: seq<Probe>) {
    |probes| == InstanceCount(c) && forall k :: 0 <= k < |probes| ==> InstancePasses(c, probes[k])
  }

  /** The samples are those of check `c` begun in `start`: sample i was taken
      from instance i under the check's stimulus. */
  ghost predicate CheckSamples(c: CheckKind, chip: Chip, start: Pins, probes: seq<Probe>) {
    match c
    case GateCheck(f) => GateProbes(chip, start, CheckGates(f), CheckOutputs(f), Repeat4(CheckVector(f)), probes)
    case InverterCheck =>
      && |probes| <= |HexInvInputs|
      && forall i :: 0 <= i < |probes| ==> ChannelProbe(chip, start, HexInvInputs, HexInvOutputs, i, High, false, probes[i])
  }

  /** A complete run of check `c` from `start`: at least one instance was
      sampled, every sample but the last passed, the run stopped early only on
      a failing sample, and the pins are as the last sample left them. */
  ghost predicate CheckRun(c: CheckKind, chip: Chip, start: Pins, pins: Pins, probes: seq<Probe>) {
    && 1 <= |probes|
    && CheckSamples(c, chip, start, probes)
    && (forall k :: 0 <= k < |probes| - 1 ==> InstancePasses(c, probes[k]))
    && (|probes| < InstanceCount(c) ==> !InstancePasses(c, probes[|probes| - 1]))
    && pins == probes[|probes| - 1].cfg
  }

  /** In a complete run the verdict is decided by the last sample: the check
      fails exactly when some sample, and then the last one, failed. */
  lemma CheckRunVerdict(c: CheckKind, chip: Chip, start: Pins, pins: Pins, probes: seq<Probe>)
    requires CheckRun(c, chip, start, pins, probes)
    ensures AllInstancesPass(c, probes) <==> InstancePasses(c, probes[|probes| - 1])
    ensures !AllInstancesPass(c, probes) <==> exists k :: 0 <= k < |probes| && !InstancePasses(c, probes[k])
  {
    assert |probes| <= InstanceCount(c) by {
      match c
      case GateCheck(f) =>
      case InverterCheck =>
    }
  }

  /** `checkPins`: the check selected by the name's prefix decides between
      "All Good" and "Faulty"; a name that selects no check prints no verdict
      and touches no pin. */
  method CheckPins(icType: string, chip: Chip, pins0: Pins) returns (verdict: Option<string>, pins: Pins, probes: seq<Probe>)
    ensures verdict.None? <==> SelectCheck(icType).None?
    ensures SelectCheck(icType).None? ==> pins == pins0 && probes == []
    ensures SelectCheck(icType).Some? ==> CheckRun(SelectCheck(icType).value, chip, pins0, pins, probes)
    ensures SelectCheck(icType).Some? ==>
      verdict == Some(if AllInstancesPass(SelectCheck(icType).value, probes) then "All Good" else "Faulty")
  {
    var ok: bool;
    pins, probes := pins0, [];
    if StartsWith(icType, "74LS00") {
      ok, pins, probes := TestAllGates(Nand, chip, pins0);
    } else if StartsWith(icType, "74LS08") {
      ok, pins, probes := TestAllGates(And, chip, pins0);
    } else if StartsWith(icType, "74LS32") {
      ok, pins, probes := TestAllGates(Or, chip, pins0);
    } else if StartsWith(icType, "74LS86") {
      ok, pins, probes := TestAllGates(Xor, chip, pins0);
    } else if StartsWith(icType, "74LS04") {
      ok, pins, probes := TestAllHexInverters(chip, pins0);
    } else if StartsWith(icType, "74LS02") {
      ok, pins, probes := TestAllGates(Nor, chip, pins0);
    } else {
      verdict := None;
      return;
    }
    verdict := Some(if ok then "All Good" else "Faulty");
  }

  /** For a chip whose gates other than k always give the family's level, the
      two-input check passes exactly when gate k gave that level when it was
      sampled; when it fails, sampling stopped at gate k. The requirements on
      the run are the postconditions of `TestAllGates`. */
  lemma GateCheckDecidedByInstance(f: Family, chip: Chip, pins0: Pins, ok: bool, probes: seq<Probe>, k: int)
    requires 0 <= k < 4
    requires 1 <= |probes| <= 4
    requires GateProbes(chip, pins0, CheckGates(f), CheckOutputs(f), Repeat4(CheckVector(f)), probes)
    requires forall j :: 0 <= j < |probes| - 1 ==> probes[j].level == CheckLevel(f)
    requires ok <==> |probes| == 4 && forall j :: 0 <= j < 4 ==> probes[j].level == CheckLevel(f)
    requires !ok ==> probes[|probes| - 1].level != CheckLevel(f)
    requires forall cfg: Pins, j :: 0 <= j < 4 && j != k ==> chip(cfg, CheckOutputs(f)[j]) == CheckLevel(f)
    ensures ok <==> k < |probes| && chip(probes[k].cfg, CheckOutputs(f)[k]) == CheckLevel(f)
    ensures !ok ==> |probes| == k + 1
  {
    var gates, outs, vectors := CheckGates(f), CheckOutputs(f), Repeat4(CheckVector(f));
    assert GateProbe(chip, pins0, gates, outs, vectors, |probes| - 1, probes[|probes| - 1]);
    if !ok {
      var last := |probes| - 1;
      assert probes[last].level == chip(probes[last].cfg, outs[last]);
      assert last == k;
    } else {
      assert GateProbe(chip, pins0, gates, outs, vectors, k, probes[k]);
    }
  }
}
