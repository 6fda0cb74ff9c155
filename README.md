# Logic-IC tester and component tester: a verified model

This project models two Arduino sketches for a bench tester.

- **The logic-IC tester** (`IC_Tester.cpp`) identifies a 14-pin 74LS-series chip. It drives four input vectors (LL, LH, HL, HH) onto the gates of two socket layouts and compares the sampled outputs with the NAND, AND, OR, XOR and NOR truth tables. The first family in priority order whose table matches entirely wins. If none matches, it toggles the six channels of a hex inverter. On request it then re-checks every gate of the detected family with one vector.
- **The component tester** (`Old_CPP_Versions/Component_Tester.cpp`) is the older sketch. It writes 4-bit codes to a seven-segment decoder, probes the display's polarity, converts a resistor-divider reading and classifies a diode from two voltages.

The microcontroller's pins are modelled the way the AVR port hardware holds them: each pin has an output-mode bit and a port bit (`Gpio.PinState`).

- `pinMode(p, OUTPUT)` keeps the port bit.
- `digitalWrite` changes only the port bit; on an input pin that switches the pull-up.
- `readPin` makes the pin an input with the pull-up off, then samples it.

Whatever sits in the socket is an oracle `Chip`: given the whole pin configuration, it says what a pin reads. Every hardware routine is a method or function from a pin configuration to a new configuration. It also returns the trace of samples it took, each sample with the configuration it was read under. The contracts then say which stimulus each sample saw and what decision the samples lead to.

Modules, in dependency order:

- `Gpio`: pins, `setInputs`, `readPin`.
- `PinMaps`: the three socket layouts.
- `TruthTables`: vectors, tables, Boolean reference.
- `Passes`: what a stimulus pass leaves on the pins.
- `Classifier`: `testLogicIC`.
- `PinCheck`: `testAll*`, `checkPins`.
- `Sketch`: the `IcTester` state, holding `detectedIC` and the button handlers.
- `ComponentTester`: the older sketch.

Two properties of the source that shape the model:

- The pin checks stop at the first failing instance (IC_Tester.cpp:153, 161, 169, 177, 185 and 192), so a failed check has sampled only the instances up to the first failure.
- The hex-inverter scan in `testLogicIC` writes its inputs without setting their pin modes (IC_Tester.cpp:121, 125). See "Findings".

## Model

| member | source | states |
|---|---|---|
| Gpio.SetInputs | IC_Tester.cpp:74-79 | both pins of the gate end as outputs driving their value (the second wins if the two pins coincide); every other pin is unchanged |
| Gpio.ReadPin | IC_Tester.cpp:81-84 | the sampled pin ends as an input with the pull-up off, nothing else changes, and the level is what the chip gives under the new configuration |
| PinMaps.PinMapsPartitionSocket | IC_Tester.cpp:11-20 | each of the three layouts splits socket pins 2..13 into stimulus and sample pins, each pin exactly once |
| PinMaps.GateLayoutSeparate | IC_Tester.cpp:11-12 | no two pins of the NAND/AND/OR/XOR layout coincide, within a gate, across gates, or between inputs and outputs |
| PinMaps.NorLayoutSeparate | IC_Tester.cpp:19-20 | the same for the NOR layout |
| PinMaps.HexLayoutSeparate | IC_Tester.cpp:15-16 | the six inverter inputs and outputs are twelve different pins |
| TruthTables.ExpectedIsTruthTable | IC_Tester.cpp:87-92 | entry i of each table is the family's Boolean function (NAND, AND, OR, XOR, NOR) of vector i, in the order LL, LH, HL, HH |
| TruthTables.MatchesIdealGate | IC_Tester.cpp:87-92 | four samples match a family's table exactly when they are an ideal gate's responses to the four vectors |
| TruthTables.CommonTablesDistinct | IC_Tester.cpp:88-91 | the NAND, AND, OR and XOR tables differ pairwise at some position |
| TruthTables.AtMostOneCommonMatch | IC_Tester.cpp:94-104 | one sample sequence matches at most one of those four tables |
| Passes.GateStep | IC_Tester.cpp:96-98 | after `setInputs` and `readPin` on gate n, gates before n still hold their own vectors, gate n holds vector n with its output released, later gates are untouched, and pins off the socket are unchanged |
| Passes.GateProbesAppend | IC_Tester.cpp:96-98 | appending the sample of gate n to the samples of gates 0..n-1 keeps every sample tied to its own gate and vector |
| Passes.ChannelStep | IC_Tester.cpp:119-128 | writing an inverter input and reading its output sets exactly that channel; the other channels and the off-socket pins keep their state |
| Passes.Layouts | IC_Tester.cpp:11-20 | the pin maps, with the four test vectors or any repeated vector, satisfy the layout conditions the passes rely on |
| Classifier.AgreesWithAppend | IC_Tester.cpp:100-103 | a flag that stood for "all samples so far match the table" still does after the new sample exactly when that sample matches its entry |
| Classifier.AgreesWithIsMatch | IC_Tester.cpp:94-104 | after four samples the flag's meaning is a full match of the family's table |
| Classifier.CommonLayoutPass | IC_Tester.cpp:94-104 | sample i is read from output i right after vector i went onto gate i only; each of isNAND, isAND, isOR, isXOR ends true iff all four samples equal its table |
| Classifier.NorPass | IC_Tester.cpp:106-110 | the same four vectors on the NOR layout; isNOR ends true iff the NOR-layout samples (and nothing from the first pass) match the NOR table |
| Classifier.Classify | IC_Tester.cpp:112-131 | each common-layout family is reported iff its own table matches; NOR iff no common table matches and the NOR table does; the inverter iff no two-input table matches and all six channels complement; otherwise "Unknown" |
| Classifier.CommonLayoutBeatsNor | IC_Tester.cpp:112-116 | a common-layout match takes priority over a simultaneous NOR match |
| Classifier.IdealGateRecognised | IC_Tester.cpp:87-116 | a chip whose gates behave as ideal gates of a family is reported as that family (NOR when no common-layout table matched) |
| Classifier.ToggleChannel | IC_Tester.cpp:120-128 | one channel: output i is sampled under the LOW and then the HIGH stimulus on input i, and afterwards only channel i has changed |
| Classifier.HexInverterScanAsWritten | IC_Tester.cpp:119-128 | the scan as written: each input is written without a mode change, so its new state is its old mode with the written port bit; the flag is true iff all six channels gave HIGH then LOW |
| Classifier.AsWrittenScanLeavesInputsFloating | IC_Tester.cpp:106-110 | after the NOR pass, inverter inputs 0 and 5 (pins 2 and 13) are inputs with the pull-up off, so in the scan as written their LOW stimulus is not a driven LOW |
| Classifier.HexInverterScan | IC_Tester.cpp:119-129 | every channel samples its output under a driven LOW and then a driven HIGH on its input; the flag is true iff all six outputs complement |
| Classifier.TestLogicIC | IC_Tester.cpp:86-132 | both passes with their stimuli; the inverter scan runs iff no two-input table matched; the returned name is the classification of the samples in priority order NAND, AND, OR, XOR, NOR, INV, "Unknown" |
| PinCheck.CheckLevelIsGateOutput | IC_Tester.cpp:149-188 | the level each check expects (NAND LOW and AND HIGH under HH; OR, XOR LOW and NOR HIGH under LL) is the ideal gate's output and the table entry for that vector |
| PinCheck.TestAllGates | IC_Tester.cpp:149-188 | the family's vector goes onto each gate in turn; the result is true iff all four outputs give the family's level, and on false the sampling stopped at the first mismatching gate |
| PinCheck.TestAllHexInverters | IC_Tester.cpp:189-195 | HIGH is written to each inverter input in turn; true iff all six outputs read LOW, and on false it stopped at the first channel that did not |
| PinCheck.SelectCheck | IC_Tester.cpp:140-145 | the first matching prefix in the order 74LS00, 74LS08, 74LS32, 74LS86, 74LS04, 74LS02 selects the check; no check iff the name has none of the prefixes |
| PinCheck.SelectCheckOfClassification | IC_Tester.cpp:140-145 | every name the classifier returns selects its own family's check; "Unknown" and the empty name select none |
| PinCheck.CheckPins | IC_Tester.cpp:134-147 | a verdict is printed iff a check is selected; the samples are then a run of that check on the chip from the starting pins, with at least one sample, every sample but the last passing and an early stop only on a failing sample; the verdict is "All Good" iff every instance was sampled and passed, else "Faulty"; with no check, no pin is touched |
| PinCheck.CheckRunVerdict | IC_Tester.cpp:149-195 | in such a run the check fails exactly when some sample failed, and then the last sample is the failing one |
| PinCheck.GateCheckDecidedByInstance | IC_Tester.cpp:149-188 | for a chip whose gates other than k always give the family's level, a two-input check passes iff gate k gave the level when sampled, and a failing check stopped at gate k |
| Sketch.IcTester.constructor | IC_Tester.cpp:24-30 | the three buttons are pull-up inputs, every other pin is a plain input, and no IC has been detected |
| Sketch.IcTester.TestButton | IC_Tester.cpp:33-44 | `detectedIC` becomes the classification of the samples `testLogicIC` takes from the current pins: both gate passes, and the inverter samples of the corrected scan begun where the NOR pass left the pins; the pins end as the last sample left them |
| Sketch.IcTester.PinCheckButton | IC_Tester.cpp:46-53 | a verdict is given iff the stored name is a classified family other than "Unknown"; it is then the `checkPins` verdict on a run of that family's check on the chip from the current pins, and the pins end as that run left them; otherwise no pin changes; the stored name is kept |
| ComponentTester.DisplayHex | Old_CPP_Versions/Component_Tester.cpp:101-106 | decoder input k (DP2, DP3, DP4, DP5) gets bit k of the number; no other pin changes |
| ComponentTester.DisplayHexShows | Old_CPP_Versions/Component_Tester.cpp:101-106 | the decoder inputs read back as a binary number give the number modulo 16, and the number itself for 0..15 |
| ComponentTester.CheckSevenSegment | Old_CPP_Versions/Component_Tester.cpp:92-99 | 16 successive `displayHex` calls with 0..15 in ascending order; after call i the decoder shows i; no non-decoder pin changes |
| ComponentTester.ReadUntilHigh | Old_CPP_Versions/Component_Tester.cpp:89 | pins are read in order and reading stops just after the first HIGH; all pins read LOW iff every sample was taken and was LOW |
| ComponentTester.DetectCommonAnode | Old_CPP_Versions/Component_Tester.cpp:85-90 | the four decoder pins are written HIGH; the result is true iff all four of them read LOW |
| ComponentTester.CheckResistance | Old_CPP_Versions/Component_Tester.cpp:123-138 | a zero reading is "No Resistor" and divides by nothing; any other reading gives R1 (1023 - raw) / raw ohms, which is never negative |
| ComponentTester.DividerClosedForm | Old_CPP_Versions/Component_Tester.cpp:125-129 | the divider formula R1 (Vin / Vout - 1) with Vout = raw Vin / 1023 equals R1 (1023 - raw) / raw |
| ComponentTester.ResistanceDecreasing | Old_CPP_Versions/Component_Tester.cpp:125-129 | a higher reading gives a smaller resistance, and a full-scale reading gives 0 ohms |
| ComponentTester.CheckDiode | Old_CPP_Versions/Component_Tester.cpp:199-202 | "Diode OK" exactly on 0.2 < fwd < 1.0 with rev > 4.0; "Shorted" exactly on fwd < 0.1 with rev < 0.5; "Open" exactly on fwd > 4.0; "Faulty" elsewhere. The three regions are disjoint, so the order of the tests does not matter |
| ComponentTester.DiodeExamples | Old_CPP_Versions/Component_Tester.cpp:199-202 | (0.6, 4.5) is OK, (0.05, 0.1) is shorted, a forward 4.5 V is open whatever the reverse reading, and (0.6, 2.0) is faulty |

## Left out

- LCD output, `delay`, button polling in `loop`, the reset button and `waitForReset`'s endless wait (IC_Tester.cpp:32-72): display and timing only. `Sketch.IcTester.TestButton` and `Sketch.IcTester.PinCheckButton` model what a press does, not the polling.
- Sketch.IcTester.TestButton: the name it stores is the one the corrected inverter scan `Classifier.HexInverterScan` produces, not the scan as written (see "Findings").
- Electrical behaviour of the chip and board: `digitalRead` is the `Chip` oracle, so settling delays and analog effects are outside the model.
- Classifier.TestLogicIC: the two loops are separate methods, `Classifier.CommonLayoutPass` and `Classifier.NorPass`, each proved on its own. The scan it calls is the corrected `Classifier.HexInverterScan`, not the one written in the source (see "Findings").
- PinCheck.CheckPins: the LCD text before the verdict is left out. The verdict is an `Option` string whose absence stands for the blank second line.
- The component tester's `setup`, `loop`, `resetDisplay`, `testLED` and `testSevenSegment`: display and sequencing only. The button pins they share with the decoder and capacitor pins (6, 11 and 13) are therefore not examined.
- ComponentTester.CheckResistance: computed over exact reals, not 32-bit floats, so float rounding is not modelled. `lcd.print`'s two-decimal formatting is left out.
- `checkCapacitance`: the capacitance formula is floating-point numerics, and its charge and discharge loops poll the ADC with no bound.
- `checkDiode`'s pin set-up and its ADC-to-volt conversions (Old_CPP_Versions/Component_Tester.cpp:175-186) are left out. `ComponentTester.CheckDiode` takes the two voltages as reals.
- ComponentTester.DetectCommonAnode: reading back an output pin is left to the board oracle. Whether the display can actually pull a driven pin LOW is not modelled.

## Findings

| source | as written | input that shows it | evidently intended | confidence | as-written member | corrected member |
|---|---|---|---|---|---|---|
| IC_Tester.cpp:119-128 | the hex-inverter scan writes LOW and HIGH to `hexInvInputs` with `digitalWrite` only. Pins 2 and 13 are NOR outputs, and the NOR pass's `readPin` left them as inputs, so the "LOW" only switches the pull-up off and the inverter input floats | a good 74LS04 in the socket: channels 0 and 5 get a floating input, which a TTL gate reads as HIGH, so their output stays LOW after the "LOW" stimulus and the chip is reported "Unknown" | each inverter input is made an output before it is written, as `setInputs` does for the gate families | not executed | Classifier.HexInverterScanAsWritten, Classifier.AsWrittenScanLeavesInputsFloating | Classifier.HexInverterScan |
