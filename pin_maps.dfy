/** The fixed wiring of the 14-pin test socket (IC_Tester.cpp, lines 11-20).
    Socket pins 2..13 are the chip's signal pins; each layout names, per gate
    instance, the pins that are stimulated and the pin that is sampled. */
module PinMaps {
  import opened Gpio

  /** NAND, AND, OR and XOR packages (74LS00, 74LS08, 74LS32, 74LS86). */
  const InputPins: seq<PinPair> := [[2, 3], [5, 6], [9, 10], [12, 13]]
  const OutputPins: seq<PinId> := [4, 7, 8, 11]

  /** The hex inverter package (74LS04): six single-input channels. */
  const HexInvInputs: seq<PinId> := [2, 4, 6, 9, 11, 13]
  const HexInvOutputs: seq<PinId> := [3, 5, 7, 8, 10, 12]

  /** The NOR package (74LS02), whose outputs come before its inputs. */
  const NorInputs: seq<PinPair> := [[3, 4], [6, 7], [8, 9], [11, 12]]
  const NorOutputs: seq<PinId> := [2, 5, 10, 13]

  function Flatten(gates: seq<PinPair>): (r: seq<PinId>)
    ensures |r| == 2 * |gates|
  {
    if gates == [] then [] else gates[0] + Flatten(gates[1..])
  }

  ghost predicate Distinct(s: seq<int>) {
    forall i, j :: 0 <= i < j < |s| ==> s[i] != s[j]
  }

  /** `ins` and `outs` are disjoint and together are exactly the pins 2..13,
      each once. */
  ghost predicate PartitionsSocket(ins: seq<int>, outs: seq<int>) {
    && Distinct(ins + outs)
    && (forall p :: p in ins + outs <==> 2 <= p <= 13)
  }

  /** No two pins of a two-input layout coincide: within a gate, across gates,
      between inputs and outputs. */
  ghost predicate SeparateGates(gates: seq<PinPair>, outs: seq<PinId>) {
    && |gates| == |outs|
    && (forall i :: 0 <= i < |gates| ==> gates[i][0] != gates[i][1])
    && (forall i, j, k, m :: 0 <= i < |gates| && 0 <= j < |gates| && i != j && 0 <= k < 2 && 0 <= m < 2 ==>
          gates[i][k] != gates[j][m])
    && (forall i, j, k :: 0 <= i < |gates| && 0 <= j < |outs| && 0 <= k < 2 ==> gates[i][k] != outs[j])
    && (forall i, j :: 0 <= i < |outs| && 0 <= j < |outs| && i != j ==> outs[i] != outs[j])
  }

  /** No two pins of a single-input layout coincide. */
  ghost predicate SeparateChannels(ins: seq<PinId>, outs: seq<PinId>) {
    && |ins| == |outs|
    && (forall i, j :: 0 <= i < |ins| && 0 <= j < |ins| && i != j ==> ins[i] != ins[j])
    && (forall i, j :: 0 <= i < |ins| && 0 <= j < |outs| ==> ins[i] != outs[j])
    && (forall i, j :: 0 <= i < |outs| && 0 <= j < |outs| && i != j ==> outs[i] != outs[j])
  }

  /** Each of the three layouts splits the socket's signal pins 2..13 into
      disjoint stimulus and sample pins. */
  lemma PinMapsPartitionSocket()
    ensures PartitionsSocket(Flatten(InputPins), OutputPins)
    ensures PartitionsSocket(HexInvInputs, HexInvOutputs)
    ensures PartitionsSocket(Flatten(NorInputs), NorOutputs)
  {
    assert Flatten(InputPins) == [2, 3, 5, 6, 9, 10, 12, 13];
    assert Flatten(NorInputs) == [3, 4, 6, 7, 8, 9, 11, 12];
    DistinctTwelve(Flatten(InputPins) + OutputPins);
    DistinctTwelve(HexInvInputs + HexInvOutputs);
    DistinctTwelve(Flatten(NorInputs) + NorOutputs);
  }

  /** Twelve integers that include every pin 2..13 are pairwise distinct. */
  lemma DistinctTwelve(s: seq<int>)
    requires |s| == 12
    requires forall p :: 2 <= p <= 13 ==> p in s
    ensures Distinct(s)
  {
    forall i, j | 0 <= i < j < |s| ensures s[i] != s[j] {
      if s[i] == s[j] {
        var rest := s[..i] + s[i + 1..];
        assert forall p :: 2 <= p <= 13 ==> p in rest by {
          forall p | 2 <= p <= 13 ensures p in rest {
            assert p in s;
            var k :| 0 <= k < |s| && s[k] == p;
            if k < i { assert rest[k] == p; }
            else if k == i { assert rest[j - 1] == p; }
            else { assert rest[k - 1] == p; }
          }
        }
        CoverNeedsLength(rest, 2, 13);
      }
    }
  }

  /** A sequence holding every integer of lo..hi has at least hi - lo + 1 entries. */
  lemma {:induction false} CoverNeedsLength(s: seq<int>, lo: int, hi: int)
    requires lo <= hi + 1
    requires forall p :: lo <= p <= hi ==> p in s
    ensures |s| >= hi - lo + 1
  {
    if lo <= hi {
      assert hi in s;
      var k :| 0 <= k < |s| && s[k] == hi;
      var rest := s[..k] + s[k + 1..];
      forall p | lo <= p <= hi - 1 ensures p in rest {
        assert p in s;
        var m :| 0 <= m < |s| && s[m] == p;
        if m < k { assert rest[m] == p; } else { assert rest[m - 1] == p; }
      }
      CoverNeedsLength(rest, lo, hi - 1);
    }
  }

  /** Entry k of gate i sits at position 2 i + k of the flattened layout. */
  lemma {:induction false} FlattenIndex(gates: seq<PinPair>, i: int, k: int)
    requires 0 <= i < |gates| && 0 <= k < 2
    ensures Flatten(gates)[2 * i + k] == gates[i][k]
  {
    if i > 0 {
      FlattenIndex(gates[1..], i - 1, k);
      assert gates[1..][i - 1] == gates[i];
    }
  }

  /** A layout whose pins, flattened, are pairwise distinct is separate. */
  lemma SeparateFromDistinct(gates: seq<PinPair>, outs: seq<PinId>)
    requires |gates| == |outs| && Distinct(Flatten(gates) + outs)
    ensures SeparateGates(gates, outs)
  {
    var s := Flatten(gates) + outs;
    forall i, k | 0 <= i < |gates| && 0 <= k < 2
      ensures s[2 * i + k] == gates[i][k]
    {
      FlattenIndex(gates, i, k);
    }
    forall j | 0 <= j < |outs| ensures s[2 * |gates| + j] == outs[j] { }
    forall i, j, k, m | 0 <= i < |gates| && 0 <= j < |gates| && i != j && 0 <= k < 2 && 0 <= m < 2
      ensures gates[i][k] != gates[j][m]
    {
      var a, b := 2 * i + k, 2 * j + m;
      if a < b { assert s[a] != s[b]; } else { assert s[b] != s[a]; }
    }
    forall i | 0 <= i < |gates| ensures gates[i][0] != gates[i][1] {
      assert s[2 * i] != s[2 * i + 1];
    }
    forall i, j, k | 0 <= i < |gates| && 0 <= j < |outs| && 0 <= k < 2 ensures gates[i][k] != outs[j] {
      assert s[2 * i + k] != s[2 * |gates| + j];
    }
    forall i, j | 0 <= i < |outs| && 0 <= j < |outs| && i != j ensures outs[i] != outs[j] {
      var a, b := 2 * |gates| + i, 2 * |gates| + j;
      if a < b { assert s[a] != s[b]; } else { assert s[b] != s[a]; }
    }
  }

  /** A single-input layout whose pins are pairwise distinct is separate. */
  lemma ChannelsFromDistinct(ins: seq<PinId>, outs: seq<PinId>)
    requires |ins| == |outs| && Distinct(ins + outs)
    ensures SeparateChannels(ins, outs)
  {
    var s := ins + outs;
    forall i, j | 0 <= i < |ins| && 0 <= j < |ins| && i != j ensures ins[i] != ins[j] {
      if i < j { assert s[i] != s[j]; } else { assert s[j] != s[i]; }
    }
    forall i, j | 0 <= i < |ins| && 0 <= j < |outs| ensures ins[i] != outs[j] {
      assert s[i] != s[|ins| + j];
    }
    forall i, j | 0 <= i < |outs| && 0 <= j < |outs| && i != j ensures outs[i] != outs[j] {
      var a, b := |ins| + i, |ins| + j;
      if a < b { assert s[a] != s[b]; } else { assert s[b] != s[a]; }
    }
  }

  lemma GateLayoutSeparate()
    ensures SeparateGates(InputPins, OutputPins)
  {
    PinMapsPartitionSocket();
    SeparateFromDistinct(InputPins, OutputPins);
  }

  lemma NorLayoutSeparate()
    ensures SeparateGates(NorInputs, NorOutputs)
  {
    PinMapsPartitionSocket();
    SeparateFromDistinct(NorInputs, NorOutputs);
  }

  lemma HexLayoutSeparate()
    ensures SeparateChannels(HexInvInputs, HexInvOutputs)
  {
    PinMapsPartitionSocket();
    ChannelsFromDistinct(HexInvInputs, HexInvOutputs);
  }
}
