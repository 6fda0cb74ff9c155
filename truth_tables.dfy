/** The stimulus vectors and expected responses of the 2-input gate families
    (IC_Tester.cpp, lines 87-92), and the Boolean functions they stand for. */
module TruthTables {
  import opened Gpio

  datatype Family = Nand | And | Or | Xor | Nor

  /** The four families told apart on the common layout; NOR has its own. */
  predicate OnCommonLayout(f: Family) {
    f != Nor
  }

  /** The input vectors in the order they are applied: LL, LH, HL, HH. */
  const TestValues: seq<Vector> := [[Low, Low], [Low, High], [High, Low], [High, High]]

  /** The expected output of each family under the four vectors, as tabulated. */
  function Expected(f: Family): (t: seq<Level>)
    ensures |t| == |TestValues|
  {
    match f
    case Nand => [High, High, High, Low]
    case And => [Low, Low, Low, High]
    case Or => [Low, High, High, High]
    case Xor => [Low, High, High, Low]
    case Nor => [High, Low, Low, Low]
  }

  /** The logic function of a gate of each family, on levels. */
  function GateOutput(f: Family, a: Level, b: Level): Level {
    var x, y := a == High, b == High;
    match f
    case Nand => LevelOf(!(x && y))
    case And => LevelOf(x && y)
    case Or => LevelOf(x || y)
    case Xor => LevelOf(x != y)
    case Nor => LevelOf(!(x || y))
  }

  /** Each tabulated entry is the family's logic function applied to the vector
      at the same position. */
  lemma ExpectedIsTruthTable(f: Family, i: int)
    requires 0 <= i < |TestValues|
    ensures Expected(f)[i] == GateOutput(f, TestValues[i][0], TestValues[i][1])
  {
    assert i == 0 || i == 1 || i == 2 || i == 3;
  }

  /** All four observed outputs equal the family's table: no partial credit. */
  predicate Matches(f: Family, samples: seq<Level>) {
    |samples| == |TestValues| && forall i :: 0 <= i < |TestValues| ==> samples[i] == Expected(f)[i]
  }

  /** A sample sequence matches a family's table exactly when it is the
      response of an ideal gate of that family to the four vectors. */
  lemma MatchesIdealGate(f: Family, samples: seq<Level>)
    ensures Matches(f, samples) <==>
      |samples| == |TestValues| &&
      forall i :: 0 <= i < |TestValues| ==> samples[i] == GateOutput(f, TestValues[i][0], TestValues[i][1])
  {
    forall i | 0 <= i < |TestValues| {
      ExpectedIsTruthTable(f, i);
    }
  }

  /** The four tables of the common layout differ pairwise, and a mismatch is
      always visible at one of the four positions. */
  lemma CommonTablesDistinct(f: Family, g: Family)
    requires OnCommonLayout(f) && OnCommonLayout(g) && f != g
    ensures exists i :: 0 <= i < |TestValues| && Expected(f)[i] != Expected(g)[i]
  {
    var i := if f == Nand || g == Nand then 0
             else if f == And || g == And then 1
             else 3;
    assert Expected(f)[i] != Expected(g)[i];
  }

  /** Hence one sample sequence matches at most one of the four tables. */
  lemma AtMostOneCommonMatch(f: Family, g: Family, samples: seq<Level>)
    requires OnCommonLayout(f) && OnCommonLayout(g) && f != g
    ensures !(Matches(f, samples) && Matches(g, samples))
  {
    CommonTablesDistinct(f, g);
  }
}
