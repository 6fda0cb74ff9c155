/** What a stimulus pass over one socket layout leaves on the pins and what
    each of its samples saw. A two-input pass drives gate i's inputs with
    vector i and samples output i (IC_Tester.cpp, lines 96-110 and 149-188);
    a channel pass writes input i of an inverter and samples output i
    (lines 119-128 and 189-195). */
module Passes {
  import opened Gpio
  import opened PinMaps

  ghost predicate OnSocket(p: int) {
    2 <= p <= 13
  }

  ghost predicate GateLayout(gates: seq<PinPair>, outs: seq<PinId>, vectors: seq<Vector>) {
    && SeparateGates(gates, outs)
    && |vectors| == |gates|
    && (forall i, k :: 0 <= i < |gates| && 0 <= k < 2 ==> OnSocket(gates[i][k]))
    && (forall i :: 0 <= i < |outs| ==> OnSocket(outs[i]))
  }

  ghost predicate ChannelLayout(ins: seq<PinId>, outs: seq<PinId>) {
    && SeparateChannels(ins, outs)
    && (forall i :: 0 <= i < |ins| ==> OnSocket(ins[i]))
    && (forall i :: 0 <= i < |outs| ==> OnSocket(outs[i]))
  }

  // ---------------------------------------------------------------- two-input gates

  /** Gate j's inputs carry vector j and its output pin has been released. */
  ghost predicate GateSettled(cfg: Pins, gates: seq<PinPair>, outs: seq<PinId>, vectors: seq<Vector>, j: int)
    requires 0 <= j < |gates| && |outs| == |gates| && |vectors| == |gates|
  {
    && cfg[gates[j][0]] == Driving(vectors[j][0])
    && cfg[gates[j][1]] == Driving(vectors[j][1])
    && cfg[outs[j]] == Released
  }

  /** Gate j's three pins are as they were at the start of the pass. */
  ghost predicate GateUntouched(cfg: Pins, start: Pins, gates: seq<PinPair>, outs: seq<PinId>, j: int)
    requires 0 <= j < |gates| && |outs| == |gates|
  {
    && cfg[gates[j][0]] == start[gates[j][0]]
    && cfg[gates[j][1]] == start[gates[j][1]]
    && cfg[outs[j]] == start[outs[j]]
  }

  /** The pins after the first n steps of a two-input pass begun in `start`. */
  ghost predicate GateState(start: Pins, cfg: Pins, gates: seq<PinPair>, outs: seq<PinId>, vectors: seq<Vector>, n: int)
    requires |outs| == |gates| && |vectors| == |gates|
  {
    && (forall j :: 0 <= j < n && j < |gates| ==> GateSettled(cfg, gates, outs, vectors, j))
    && (forall j :: 0 <= n <= j < |gates| ==> GateUntouched(cfg, start, gates, outs, j))
    && SocketFrame(start, cfg)
  }

  /** Sample i was read from output i, right after gate i received vector i:
      every earlier gate still holds its own vector, no later gate has been
      touched yet. */
  ghost predicate GateProbe(chip: Chip, start: Pins, gates: seq<PinPair>, outs: seq<PinId>, vectors: seq<Vector>, i: int, p: Probe)
    requires 0 <= i < |gates| && |outs| == |gates| && |vectors| == |gates|
  {
    && p.pin == outs[i]
    && p.level == chip(p.cfg, outs[i])
    && GateState(start, p.cfg, gates, outs, vectors, i + 1)
  }

  ghost predicate GateProbes(chip: Chip, start: Pins, gates: seq<PinPair>, outs: seq<PinId>, vectors: seq<Vector>, probes: seq<Probe>)
    requires |outs| == |gates| && |vectors| == |gates|
  {
    && |probes| <= |gates|
    && forall i :: 0 <= i < |probes| ==> GateProbe(chip, start, gates, outs, vectors, i, probes[i])
  }

  lemma GateProbesAppend(chip: Chip, start: Pins, gates: seq<PinPair>, outs: seq<PinId>, vectors: seq<Vector>,
                         probes: seq<Probe>, p: Probe)
    requires |outs| == |gates| && |vectors| == |gates| && |probes| < |gates|
    requires GateProbes(chip, start, gates, outs, vectors, probes)
    requires GateProbe(chip, start, gates, outs, vectors, |probes|, p)
    ensures GateProbes(chip, start, gates, outs, vectors, probes + [p])
  {
    forall i | 0 <= i < |probes| + 1
      ensures GateProbe(chip, start, gates, outs, vectors, i, (probes + [p])[i])
    {
      if i < |probes| {
        assert (probes + [p])[i] == probes[i];
      }
    }
  }

  /** One step of a two-input pass: `setInputs(gates[n], vectors[n])` turns
      `cfg` into `driven`, then `readPin(outs[n])` releases the output. */
  lemma GateStep(start: Pins, cfg: Pins, driven: Pins, after: Pins,
                 gates: seq<PinPair>, outs: seq<PinId>, vectors: seq<Vector>, n: int)
    requires GateLayout(gates, outs, vectors) && 0 <= n < |gates|
    requires GateState(start, cfg, gates, outs, vectors, n)
    requires driven[gates[n][1]] == Driving(vectors[n][1])
    requires gates[n][0] != gates[n][1] ==> driven[gates[n][0]] == Driving(vectors[n][0])
    requires forall p: PinId :: p != gates[n][0] && p != gates[n][1] ==> driven[p] == cfg[p]
    requires after[outs[n]] == Released
    requires forall q: PinId :: q != outs[n] ==> after[q] == driven[q]
    ensures GateState(start, after, gates, outs, vectors, n + 1)
  {
    forall j | 0 <= j < n + 1
      ensures GateSettled(after, gates, outs, vectors, j)
    {
      if j < n {
        assert GateSettled(cfg, gates, outs, vectors, j);
        assert gates[j][0] != gates[n][0] && gates[j][0] != gates[n][1] && gates[j][0] != outs[n];
        assert gates[j][1] != gates[n][0] && gates[j][1] != gates[n][1] && gates[j][1] != outs[n];
        assert outs[j] != gates[n][0] && outs[j] != gates[n][1] && outs[j] != outs[n];
      } else {
        assert gates[n][0] != outs[n] && gates[n][1] != outs[n];
      }
    }
    forall j | n + 1 <= j < |gates|
      ensures GateUntouched(after, start, gates, outs, j)
    {
      assert GateUntouched(cfg, start, gates, outs, j);
      assert gates[j][0] != gates[n][0] && gates[j][0] != gates[n][1] && gates[j][0] != outs[n];
      assert gates[j][1] != gates[n][0] && gates[j][1] != gates[n][1] && gates[j][1] != outs[n];
      assert outs[j] != gates[n][0] && outs[j] != gates[n][1] && outs[j] != outs[n];
    }
    assert OnSocket(gates[n][0]) && OnSocket(gates[n][1]) && OnSocket(outs[n]);
  }

  // ---------------------------------------------------------------- inverter channels

  /** The state of channel i's input pin after writing `v` to it: an output
      when the pass sets the pin mode (`setsMode`), otherwise whatever mode
      the pin had when the pass began. */
  function ChannelInput(start: Pins, ins: seq<PinId>, i: int, v: Level, setsMode: bool): PinState
    requires 0 <= i < |ins|
  {
    PinState(setsMode || start[ins[i]].output, v)
  }

  ghost predicate ChannelSet(cfg: Pins, start: Pins, ins: seq<PinId>, outs: seq<PinId>, i: int, v: Level, setsMode: bool)
    requires 0 <= i < |ins| && |outs| == |ins|
  {
    cfg[ins[i]] == ChannelInput(start, ins, i, v, setsMode) && cfg[outs[i]] == Released
  }

  ghost predicate ChannelUntouched(cfg: Pins, start: Pins, ins: seq<PinId>, outs: seq<PinId>, j: int)
    requires 0 <= j < |ins| && |outs| == |ins|
  {
    cfg[ins[j]] == start[ins[j]] && cfg[outs[j]] == start[outs[j]]
  }

  /** Channels before `n` were left with their input written HIGH and their
      output released; channels from `m` on are untouched. */
  ghost predicate ChannelState(start: Pins, cfg: Pins, ins: seq<PinId>, outs: seq<PinId>, n: int, m: int, setsMode: bool)
    requires |outs| == |ins|
  {
    && (forall j :: 0 <= j < n && j < |ins| ==> ChannelSet(cfg, start, ins, outs, j, High, setsMode))
    && (forall j :: 0 <= m <= j < |ins| ==> ChannelUntouched(cfg, start, ins, outs, j))
    && SocketFrame(start, cfg)
  }

  /** Sample of output i taken while input i holds `v`. */
  ghost predicate ChannelProbe(chip: Chip, start: Pins, ins: seq<PinId>, outs: seq<PinId>, i: int, v: Level, setsMode: bool, p: Probe)
    requires 0 <= i < |ins| && |outs| == |ins|
  {
    && p.pin == outs[i]
    && p.level == chip(p.cfg, outs[i])
    && ChannelSet(p.cfg, start, ins, outs, i, v, setsMode)
    && ChannelState(start, p.cfg, ins, outs, i, i + 1, setsMode)
  }

  /** Writing `v` to channel n's input (after making it an output when
      `setsMode`) and then reading its output. The first write of a channel
      starts from its untouched pins, the second from its LOW sample. */
  lemma ChannelStep(start: Pins, cfg: Pins, written: Pins, after: Pins,
                    ins: seq<PinId>, outs: seq<PinId>, n: int, v: Level, setsMode: bool, firstWrite: bool)
    requires ChannelLayout(ins, outs) && 0 <= n < |ins|
    requires firstWrite ==> ChannelState(start, cfg, ins, outs, n, n, setsMode)
    requires !firstWrite ==> ChannelSet(cfg, start, ins, outs, n, Low, setsMode) && ChannelState(start, cfg, ins, outs, n, n + 1, setsMode)
    requires written[ins[n]] == PinState(setsMode || cfg[ins[n]].output, v)
    requires forall p: PinId :: p != ins[n] ==> written[p] == cfg[p]
    requires after[outs[n]] == Released
    requires forall q: PinId :: q != outs[n] ==> after[q] == written[q]
    ensures ChannelSet(after, start, ins, outs, n, v, setsMode)
    ensures ChannelState(start, after, ins, outs, n, n + 1, setsMode)
  {
    if firstWrite {
      assert ChannelUntouched(cfg, start, ins, outs, n);
    }
    forall j | 0 <= j < n
      ensures ChannelSet(after, start, ins, outs, j, High, setsMode)
    {
      assert ChannelSet(cfg, start, ins, outs, j, High, setsMode);
      assert ins[j] != ins[n] && ins[j] != outs[n] && outs[j] != ins[n] && outs[j] != outs[n];
    }
    forall j | n + 1 <= j < |ins|
      ensures ChannelUntouched(after, start, ins, outs, j)
    {
      assert ChannelUntouched(cfg, start, ins, outs, j);
      assert ins[j] != ins[n] && ins[j] != outs[n] && outs[j] != ins[n] && outs[j] != outs[n];
    }
    assert ins[n] != outs[n];
    assert OnSocket(ins[n]) && OnSocket(outs[n]);
  }

  lemma Layouts()
    ensures GateLayout(InputPins, OutputPins, [[Low, Low], [Low, High], [High, Low], [High, High]])
    ensures forall v: Vector :: GateLayout(InputPins, OutputPins, [v, v, v, v])
    ensures forall v: Vector :: GateLayout(NorInputs, NorOutputs, [v, v, v, v])
    ensures GateLayout(NorInputs, NorOutputs, [[Low, Low], [Low, High], [High, Low], [High, High]])
    ensures ChannelLayout(HexInvInputs, HexInvOutputs)
  {
    GateLayoutSeparate();
    NorLayoutSeparate();
    HexLayoutSeparate();
    forall i, k | 0 <= i < 4 && 0 <= k < 2 ensures OnSocket(InputPins[i][k]) && OnSocket(NorInputs[i][k]) {
      assert i == 0 || i == 1 || i == 2 || i == 3;
    }
  }
}
