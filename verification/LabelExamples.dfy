/** Labels of a real chart, in the order of their points, that first fit packs worse than need be. */
module LabelExamples {

  import opened Prelude
  import opened LabelPacking
  import LabelClipping

  const CHART_WIDTH := 572.0
  const POINTS := 1001

  /** The label of a note of so many code units at a data point, as the chart prepares it, with the fallback measure. */
  function Label(index: nat, units: nat): PackItem {
    var width := LabelClipping.EstimateLabelWidth(None, seq(units, _ => 0x61));
    PackItem(ClampLabelX(PixelXForIndex(index, POINTS, CHART_WIDTH), width, CHART_WIDTH), width)
  }

  lemma LabelIs(index: nat, units: nat)
    requires 108 <= index <= 218 && units <= 12
    ensures Label(index, units) == PackItem(56.0 + index as real / 2.0, 5.0 * units as real + 10.0)
  {
    var text: LabelClipping.Text := seq(units, _ => 0x61);
    assert LabelClipping.Width(None, text) == 5.0 * units as real == (5 * units) as real;
    assert LabelClipping.Ceiling((5 * units) as real) == (5 * units) as real;
    assert PixelXForIndex(index, POINTS, CHART_WIDTH) == 56.0 + (index as real * 500.0) / 1000.0;
  }

  const SHORT_ONE := PackItem(110.0, 20.0)
  const SHORT_TWO := PackItem(125.0, 20.0)
  const WIDE := PackItem(140.0, 60.0)
  const TINY := PackItem(152.5, 15.0)
  const LONG := PackItem(165.0, 70.0)

  lemma LabelsAreReal()
    ensures [Label(108, 2), Label(138, 2), Label(168, 10), Label(193, 1), Label(218, 12)]
         == [SHORT_ONE, SHORT_TWO, WIDE, TINY, LONG]
  {
    LabelIs(108, 2);
    LabelIs(138, 2);
    LabelIs(168, 10);
    LabelIs(193, 1);
    LabelIs(218, 12);
  }

  lemma EdgesAre()
    ensures SHORT_ONE.Left() == 100.0 && SHORT_ONE.Right() == 120.0
    ensures SHORT_TWO.Left() == 115.0 && SHORT_TWO.Right() == 135.0
    ensures WIDE.Left() == 110.0 && WIDE.Right() == 170.0
    ensures TINY.Left() == 145.0 && TINY.Right() == 160.0
    ensures LONG.Left() == 130.0 && LONG.Right() == 200.0
  {}

  /** One step of first fit: the row is the lowest that fits. */
  lemma Placed(items: seq<PackItem>, before: Packing, row: nat, after: Packing)
    requires var n := |before.rows|; n < |items| && Pack(items, |before.last|, n) == Some(before)
    requires row < |before.last| && Fits(items[|before.rows|].Left(), before.last[row])
    requires forall k :: 0 <= k < row ==> !Fits(items[|before.rows|].Left(), before.last[k])
    requires after.last == before.last[row := At(items[|before.rows|].Right())] && after.rows == before.rows + [row]
    ensures Pack(items, |after.last|, |after.rows|) == Some(after)
  {
    hide Fits;
    FirstFitMeans(items[|before.rows|].Left(), before.last, 0);
  }

  /** No row fits. */
  lemma Stuck(items: seq<PackItem>, before: Packing)
    requires var n := |before.rows|; n < |items| && Pack(items, |before.last|, n) == Some(before)
    requires forall k :: 0 <= k < |before.last| ==> !Fits(items[|before.rows|].Left(), before.last[k])
    ensures Pack(items, |before.last|, |items|) == None
  {
    FirstFitMeans(items[|before.rows|].Left(), before.last, 0);
    PackFails(items, |before.last|, |before.rows| + 1, |items|);
  }

  /** The first two labels take two rows, if there are that many. */
  lemma TwoShort(items: seq<PackItem>)
    requires |items| > 2 && items[0] == SHORT_ONE && items[1] == SHORT_TWO
    ensures Pack(items, 2, 2) == Some(Packing([At(120.0), At(135.0)], [0, 1]))
    ensures Pack(items, 1, |items|) == None
  {
    EdgesAre();
    var e := NegInfinity;
    assert seq(2, _ => NegInfinity) == [e, e] && seq(1, _ => NegInfinity) == [e];
    Placed(items, Packing([e, e], []), 0, Packing([At(120.0), e], [0]));
    Placed(items, Packing([At(120.0), e], [0]), 1, Packing([At(120.0), At(135.0)], [0, 1]));
    Placed(items, Packing([e], []), 0, Packing([At(120.0)], [0]));
    Stuck(items, Packing([At(120.0)], [0]));
  }

  lemma FourFail(items: seq<PackItem>)
    requires items == [SHORT_ONE, SHORT_TWO, TINY, LONG]
    ensures Pack(items, 2, |items|) == None
  {
    EdgesAre();
    TwoShort(items);
    Placed(items, Packing([At(120.0), At(135.0)], [0, 1]), 0, Packing([At(160.0), At(135.0)], [0, 1, 0]));
    Stuck(items, Packing([At(160.0), At(135.0)], [0, 1, 0]));
  }

  lemma FourFit(items: seq<PackItem>)
    requires items == [SHORT_ONE, SHORT_TWO, TINY, LONG]
    ensures IsFeasible(items, 2)
  {
    EdgesAre();
    assert IsLayout(items, 2, [0, 1, 1, 0]);
  }

  /** Labels in the order of their points can defeat first fit: four that fit two rows, which it fails to place. */
  lemma CentreOrderIsNotEnough()
    ensures
      var items := [Label(108, 2), Label(138, 2), Label(193, 1), Label(218, 12)];
      && (forall i, j :: 0 <= i < j < |items| ==> items[i].pixelX <= items[j].pixelX)
      && IsFeasible(items, 2) && Pack(items, 2, |items|) == None
  {
    LabelsAreReal();
    var items := [SHORT_ONE, SHORT_TWO, TINY, LONG];
    FourFail(items);
    FourFit(items);
    assert items == [Label(108, 2), Label(138, 2), Label(193, 1), Label(218, 12)];
  }

  // ----- a stagger that need not be -----

  lemma FiveFailTwo(items: seq<PackItem>)
    requires items == [SHORT_ONE, SHORT_TWO, WIDE, TINY, LONG]
    ensures Pack(items, 1, |items|) == None && Pack(items, 2, |items|) == None
  {
    EdgesAre();
    TwoShort(items);
    Stuck(items, Packing([At(120.0), At(135.0)], [0, 1]));
  }

  /** The wide label takes the third row. */
  lemma ThreeInThree(items: seq<PackItem>)
    requires items == [SHORT_ONE, SHORT_TWO, WIDE, TINY, LONG]
    ensures Pack(items, 3, 3) == Some(Packing([At(120.0), At(135.0), At(170.0)], [0, 1, 2]))
  {
    EdgesAre();
    TwoShort(items);
    OneMoreRow(items, 2, 2);
    var two := Packing([At(120.0), At(135.0), NegInfinity], [0, 1]);
    assert AddRow(Packing([At(120.0), At(135.0)], [0, 1])) == two;
    Placed(items, two, 2, Packing([At(120.0), At(135.0), At(170.0)], [0, 1, 2]));
  }

  lemma FiveFailThree(items: seq<PackItem>)
    requires items == [SHORT_ONE, SHORT_TWO, WIDE, TINY, LONG]
    ensures Pack(items, 3, |items|) == None
  {
    EdgesAre();
    ThreeInThree(items);
    Placed(items, Packing([At(120.0), At(135.0), At(170.0)], [0, 1, 2]), 0,
           Packing([At(160.0), At(135.0), At(170.0)], [0, 1, 2, 0]));
    Stuck(items, Packing([At(160.0), At(135.0), At(170.0)], [0, 1, 2, 0]));
  }

  lemma FiveFit(items: seq<PackItem>)
    requires items == [SHORT_ONE, SHORT_TWO, WIDE, TINY, LONG]
    ensures IsFeasible(items, MAX_ROWS) && !IsLayout(items, MAX_ROWS, [0, 1, 2, 0, 1])
  {
    EdgesAre();
    assert IsLayout(items, 3, [0, 1, 2, 1, 0]);
    var stagger := [0, 1, 2, 0, 1];
    assert stagger[1] == stagger[4] && !Apart(items[1], items[4]);
  }

  /** Five labels that three rows would hold, and that the chart nevertheless staggers over one another. */
  lemma StaggerThoughThreeRowsSuffice()
    ensures
      var items := [Label(108, 2), Label(138, 2), Label(168, 10), Label(193, 1), Label(218, 12)];
      && (forall i, j :: 0 <= i < j < |items| ==> items[i].pixelX <= items[j].pixelX)
      && IsFeasible(items, MAX_ROWS)
      && Settles(items, MAX_ROWS + 1, [0, 1, 2, 0, 1]) && !IsLayout(items, MAX_ROWS, [0, 1, 2, 0, 1])
  {
    LabelsAreReal();
    var items := [SHORT_ONE, SHORT_TWO, WIDE, TINY, LONG];
    FiveFailTwo(items);
    FiveFailThree(items);
    FiveFit(items);
    assert FailsBelow(items, MAX_ROWS + 1);
  }
}
