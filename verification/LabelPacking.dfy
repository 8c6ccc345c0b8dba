/** Placing a chart's note labels: horizontal positions, first-fit rows and the height of the band. */
module LabelPacking {

  import opened Prelude

  datatype PackItem = PackItem(pixelX: real, labelWidth: real) {
    function Left(): real { pixelX - labelWidth / 2.0 }
    function Right(): real { pixelX + labelWidth / 2.0 }
  }

  const MIN_GAP := 2.0
  const MAX_ROWS := 3

  // ----- first fit -----

  /** The right edge of the last label of a row; an empty row is minus infinity. */
  datatype Edge = NegInfinity | At(x: real)

  predicate Fits(left: real, last: Edge) {
    last.NegInfinity? || left - last.x >= MIN_GAP
  }

  /** The first row, from `row` on, that the label fits in. */
  function FirstFit(left: real, last: seq<Edge>, row: nat): Option<nat>
    requires row <= |last|
    decreases |last| - row
  {
    if row == |last| then None
    else if Fits(left, last[row]) then Some(row)
    else FirstFit(left, last, row + 1)
  }

  datatype Packing = Packing(last: seq<Edge>, rows: seq<nat>)

  /** The packing of the first n items, or None once one of them fitted nowhere. */
  function Pack(items: seq<PackItem>, rowCount: nat, n: nat): (p: Option<Packing>)
    requires n <= |items|
    ensures p.Some? ==> |p.value.last| == rowCount && |p.value.rows| == n
  {
    if n == 0 then Some(Packing(seq(rowCount, _ => NegInfinity), []))
    else
      var before := Pack(items, rowCount, n - 1);
      if before.None? then None
      else
        var row := FirstFit(items[n - 1].Left(), before.value.last, 0);
        if row.None? then None
        else
          FirstFitMeans(items[n - 1].Left(), before.value.last, 0);
          Some(Packing(before.value.last[row.value := At(items[n - 1].Right())], before.value.rows + [row.value]))
  }

  function RowsOf(p: Option<Packing>): Option<seq<nat>> {
    if p.Some? then Some(p.value.rows) else None
  }

  lemma {:induction false} FirstFitMeans(left: real, last: seq<Edge>, row: nat)
    requires row <= |last|
    ensures
      var fit := FirstFit(left, last, row);
      && (fit.Some? ==> row <= fit.value < |last| && Fits(left, last[fit.value]))
      && (forall k :: row <= k < (if fit.Some? then fit.value else |last|) ==> !Fits(left, last[k]))
    decreases |last| - row
  {
    if row < |last| && !Fits(left, last[row]) {
      FirstFitMeans(left, last, row + 1);
    }
  }

  /** `tryPack`, over an array of last right edges. */
  method TryPack(items: seq<PackItem>, rowCount: nat) returns (assignments: Option<seq<nat>>)
    ensures assignments == RowsOf(Pack(items, rowCount, |items|))
  {
    var lastRightByRow := new Edge[rowCount](_ => NegInfinity);
    var rows: seq<nat> := [];
    assert lastRightByRow[..] == seq(rowCount, _ => NegInfinity);
    for n := 0 to |items|
      invariant Pack(items, rowCount, n) == Some(Packing(lastRightByRow[..], rows))
    {
      var item := items[n];
      var placedRow := -1;
      var row := 0;
      ghost var last := lastRightByRow[..];
      while row < rowCount && placedRow == -1
        invariant 0 <= row <= rowCount
        invariant -1 <= placedRow < rowCount
        invariant placedRow == -1 ==> FirstFit(item.Left(), last, 0) == FirstFit(item.Left(), last, row)
        invariant placedRow != -1 ==> FirstFit(item.Left(), last, 0) == Some(placedRow)
        invariant lastRightByRow[..] == if placedRow == -1 then last else last[placedRow := At(item.Right())]
        decreases rowCount - row, if placedRow == -1 then 1 else 0
      {
        if Fits(item.Left(), lastRightByRow[row]) {
          lastRightByRow[row] := At(item.Right());
          placedRow := row;
        } else {
          row := row + 1;
        }
      }
      if placedRow == -1 {
        PackFails(items, rowCount, n + 1, |items|);
        return None;
      }
      rows := rows + [placedRow];
    }
    return Some(rows);
  }

  lemma {:induction false} PackFails(items: seq<PackItem>, rowCount: nat, m: nat, n: nat)
    requires m <= n <= |items| && Pack(items, rowCount, m) == None
    ensures Pack(items, rowCount, n) == None
  {
    if m < n { PackFails(items, rowCount, m, n - 1); }
  }

  // ----- what an assignment has to satisfy -----

  predicate Apart(a: PackItem, b: PackItem) {
    b.Left() - a.Right() >= MIN_GAP || a.Left() - b.Right() >= MIN_GAP
  }

  /** `rows` puts every item into one of `rowCount` rows, same-row items at least the gap apart. */
  ghost predicate IsLayout(items: seq<PackItem>, rowCount: nat, rows: seq<nat>) {
    && |rows| == |items|
    && (forall i :: 0 <= i < |rows| ==> rows[i] < rowCount)
    && (forall i, j :: 0 <= i < j < |rows| && rows[i] == rows[j] ==> Apart(items[i], items[j]))
  }

  ghost predicate IsFeasible(items: seq<PackItem>, rowCount: nat) {
    exists rows :: IsLayout(items, rowCount, rows)
  }

  predicate NonNegativeWidths(items: seq<PackItem>) {
    forall i :: 0 <= i < |items| ==> items[i].labelWidth >= 0.0
  }

  predicate LeftSorted(items: seq<PackItem>) {
    forall i, j :: 0 <= i < j < |items| ==> items[i].Left() <= items[j].Left()
  }

  /** Each row's recorded edge bounds the right edges of all its labels, and is one of theirs. */
  ghost predicate EdgesOk(items: seq<PackItem>, p: Packing) {
    && |p.rows| <= |items|
    && (forall i :: 0 <= i < |p.rows| ==>
      p.rows[i] < |p.last| && p.last[p.rows[i]].At? && items[i].Right() <= p.last[p.rows[i]].x)
    && (forall r :: 0 <= r < |p.last| && p.last[r].At? ==> exists i :: HoldsEdge(items, p, r, i))
  }

  predicate HoldsEdge(items: seq<PackItem>, p: Packing, r: int, i: int) {
    0 <= i < |p.rows| && i < |items| && 0 <= r < |p.last| && p.rows[i] == r && p.last[r] == At(items[i].Right())
  }

  lemma {:induction false} EdgesHold(items: seq<PackItem>, rowCount: nat, n: nat)
    requires n <= |items| && NonNegativeWidths(items) && Pack(items, rowCount, n).Some?
    ensures EdgesOk(items, Pack(items, rowCount, n).value)
  {
    if n > 0 {
      EdgesHold(items, rowCount, n - 1);
      var p, p' := Pack(items, rowCount, n - 1).value, Pack(items, rowCount, n).value;
      FirstFitMeans(items[n - 1].Left(), p.last, 0);
      EdgesStep(items, p, p', items[n - 1], p'.rows[n - 1]);
    }
  }

  lemma EdgesStep(items: seq<PackItem>, p: Packing, p': Packing, item: PackItem, row: nat)
    requires EdgesOk(items, p) && |p.rows| < |items| && item == items[|p.rows|] && item.labelWidth >= 0.0
    requires row < |p.last| && Fits(item.Left(), p.last[row])
    requires p' == Packing(p.last[row := At(item.Right())], p.rows + [row])
    ensures EdgesOk(items, p')
  {
    var n := |p.rows|;
    forall r | 0 <= r < |p'.last| && p'.last[r].At? ensures exists i :: HoldsEdge(items, p', r, i) {
      if r == row {
        assert HoldsEdge(items, p', r, n);
      } else {
        var i :| HoldsEdge(items, p, r, i);
        assert HoldsEdge(items, p', r, i);
      }
    }
  }

  /** For any order of items: what tryPack returns keeps same-row labels at least the gap apart. */
  lemma {:induction false} PackIsLayout(items: seq<PackItem>, rowCount: nat, n: nat)
    requires n <= |items| && NonNegativeWidths(items) && Pack(items, rowCount, n).Some?
    ensures IsLayout(items[..n], rowCount, Pack(items, rowCount, n).value.rows)
  {
    if n > 0 {
      PackIsLayout(items, rowCount, n - 1);
      EdgesHold(items, rowCount, n - 1);
      var p, p' := Pack(items, rowCount, n - 1).value, Pack(items, rowCount, n).value;
      FirstFitMeans(items[n - 1].Left(), p.last, 0);
      LayoutStep(items, p, p'.rows[n - 1]);
    }
  }

  lemma LayoutStep(items: seq<PackItem>, p: Packing, row: nat)
    requires |p.rows| < |items| && EdgesOk(items, p) && IsLayout(items[..|p.rows|], |p.last|, p.rows)
    requires row < |p.last| && Fits(items[|p.rows|].Left(), p.last[row])
    ensures IsLayout(items[..|p.rows| + 1], |p.last|, p.rows + [row])
  {
    var n := |p.rows|;
    forall i | 0 <= i < n && p.rows[i] == row ensures Apart(items[i], items[n]) {
      assert items[i].Right() <= p.last[row].x;
    }
    forall i, j | 0 <= i < j < n && p.rows[i] == p.rows[j] ensures Apart(items[i], items[j]) {
      assert Apart(items[..n][i], items[..n][j]);
    }
  }

  // ----- optimality -----

  /** Distinct numbers below a bound are at most that many: take the largest number out and recur. */
  lemma {:induction false} Pigeonhole(s: seq<nat>, bound: nat)
    requires (forall i :: 0 <= i < |s| ==> s[i] < bound) && Distinct(s)
    ensures |s| <= bound
    decreases bound
  {
    if s != [] {
      assert s[0] < bound;
      if k :| 0 <= k < |s| && s[k] == bound - 1 {
        Pigeonhole(s[..k] + s[k + 1..], bound - 1);
      } else {
        Pigeonhole(s, bound - 1);
      }
    }
  }

  /** One earlier item for each row: the holder of the row's edge. */
  ghost function Holders(items: seq<PackItem>, p: Packing, r: nat): (h: seq<nat>)
    requires r <= |p.last| && EdgesOk(items, p) && forall k :: 0 <= k < |p.last| ==> p.last[k].At?
    ensures |h| == r && forall k :: 0 <= k < r ==> HoldsEdge(items, p, k, h[k])
  {
    if r == 0 then []
    else
      var i :| HoldsEdge(items, p, r - 1, i);
      Holders(items, p, r - 1) + [i]
  }

  /** Where first fit gets stuck, rowCount + 1 labels overlap pairwise, so no layout exists. */
  lemma StuckIsInfeasible(items: seq<PackItem>, p: Packing, rows: seq<nat>)
    requires NonNegativeWidths(items) && LeftSorted(items) && EdgesOk(items, p) && |p.rows| < |items|
    requires FirstFit(items[|p.rows|].Left(), p.last, 0) == None
    ensures !IsLayout(items, |p.last|, rows)
  {
    var n := |p.rows|;
    FirstFitMeans(items[n].Left(), p.last, 0);
    var clique := Holders(items, p, |p.last|) + [n];
    if IsLayout(items, |p.last|, rows) {
      var colours := seq(|clique|, k requires 0 <= k < |clique| => rows[clique[k]]);
      forall a, b | 0 <= a < b < |clique| ensures colours[a] != colours[b] {
        CliqueOverlaps(items, p, clique, a, b);
      }
      Pigeonhole(colours, |p.last|);
    }
  }

  lemma CliqueOverlaps(items: seq<PackItem>, p: Packing, clique: seq<nat>, a: nat, b: nat)
    requires NonNegativeWidths(items) && LeftSorted(items) && EdgesOk(items, p) && |p.rows| < |items|
    requires forall k :: 0 <= k < |p.last| ==> !Fits(items[|p.rows|].Left(), p.last[k])
    requires |clique| == |p.last| + 1 && clique[|p.last|] == |p.rows|
    requires forall k :: 0 <= k < |p.last| ==> HoldsEdge(items, p, k, clique[k])
    requires a < b < |clique|
    ensures clique[a] < |items| && clique[b] < |items| && clique[a] != clique[b]
    ensures !Apart(items[clique[a]], items[clique[b]]) && !Apart(items[clique[b]], items[clique[a]])
  {
    var n := |p.rows|;
    assert HoldsEdge(items, p, a, clique[a]);
    assert b < |p.last| ==> HoldsEdge(items, p, b, clique[b]);
    assert items[clique[a]].Left() <= items[n].Left() && items[n].Left() - items[clique[a]].Right() < MIN_GAP;
    assert items[clique[b]].Left() <= items[n].Left() && items[n].Left() - items[clique[b]].Right() < MIN_GAP;
  }

  /** On labels sorted by left edge, first fit succeeds exactly when some layout exists. */
  lemma PackIffFeasible(items: seq<PackItem>, rowCount: nat)
    requires NonNegativeWidths(items) && LeftSorted(items)
    ensures Pack(items, rowCount, |items|).Some? <==> IsFeasible(items, rowCount)
  {
    if Pack(items, rowCount, |items|).Some? {
      PackIsLayout(items, rowCount, |items|);
      assert items[..|items|] == items;
    } else {
      var n := FirstFailure(items, rowCount, |items|);
      EdgesHold(items, rowCount, n);
      forall rows ensures !IsLayout(items, rowCount, rows) {
        StuckIsInfeasible(items, Pack(items, rowCount, n).value, rows);
      }
    }
  }

  lemma {:induction false} FirstFailure(items: seq<PackItem>, rowCount: nat, n: nat) returns (m: nat)
    requires n <= |items| && Pack(items, rowCount, n) == None
    ensures m < n && Pack(items, rowCount, m).Some?
      && FirstFit(items[m].Left(), Pack(items, rowCount, m).value.last, 0) == None
  {
    if Pack(items, rowCount, n - 1) == None {
      m := FirstFailure(items, rowCount, n - 1);
    } else {
      m := n - 1;
    }
  }

  // ----- more rows -----

  /** One more row changes nothing while the fewer rows suffice. */
  lemma {:induction false} OneMoreRow(items: seq<PackItem>, rowCount: nat, n: nat)
    requires n <= |items| && Pack(items, rowCount, n).Some?
    ensures Pack(items, rowCount + 1, n) == Some(AddRow(Pack(items, rowCount, n).value))
  {
    if n > 0 {
      OneMoreRow(items, rowCount, n - 1);
      var last := Pack(items, rowCount, n - 1).value.last;
      FirstFitPrefix(items[n - 1].Left(), last, 0);
      FirstFitMeans(items[n - 1].Left(), last, 0);
      var row := FirstFit(items[n - 1].Left(), last, 0).value;
      assert (last + [NegInfinity])[row := At(items[n - 1].Right())]
        == last[row := At(items[n - 1].Right())] + [NegInfinity];
    } else {
      assert seq(rowCount + 1, _ => NegInfinity) == seq(rowCount, _ => NegInfinity) + [NegInfinity];
    }
  }

  function AddRow(p: Packing): Packing {
    Packing(p.last + [NegInfinity], p.rows)
  }

  lemma {:induction false} FirstFitPrefix(left: real, last: seq<Edge>, row: nat)
    requires row <= |last| && FirstFit(left, last, row).Some?
    ensures FirstFit(left, last + [NegInfinity], row) == FirstFit(left, last, row)
    decreases |last| - row
  {
    if !Fits(left, last[row]) {
      FirstFitPrefix(left, last, row + 1);
    }
  }

  /** A packing that never uses the last row is the packing with one row fewer. */
  lemma {:induction false} UnusedRow(items: seq<PackItem>, rowCount: nat, n: nat)
    requires n <= |items| && rowCount > 0 && Pack(items, rowCount, n).Some?
    requires rowCount - 1 !in Pack(items, rowCount, n).value.rows
    ensures Pack(items, rowCount - 1, n).Some?
      && Pack(items, rowCount, n).value == AddRow(Pack(items, rowCount - 1, n).value)
  {
    if n > 0 {
      var p, p' := Pack(items, rowCount, n - 1).value, Pack(items, rowCount, n).value;
      assert p'.rows == p.rows + [p'.rows[n - 1]];
      UnusedRow(items, rowCount, n - 1);
      var fewer := Pack(items, rowCount - 1, n - 1).value;
      FirstFitMeans(items[n - 1].Left(), p.last, 0);
      FirstFitMeans(items[n - 1].Left(), fewer.last, 0);
      assert Fits(items[n - 1].Left(), fewer.last[p'.rows[n - 1]]);
      OneMoreRow(items, rowCount - 1, n);
    } else {
      assert seq(rowCount, _ => NegInfinity) == seq(rowCount - 1, _ => NegInfinity) + [NegInfinity];
    }
  }

  /** As many rows as labels are always enough. */
  lemma {:induction false} EnoughRows(items: seq<PackItem>, rowCount: nat, n: nat)
    requires n <= |items| && n <= rowCount
    ensures Pack(items, rowCount, n).Some? && forall r :: n <= r < rowCount ==>
      Pack(items, rowCount, n).value.last[r] == NegInfinity
  {
    if n > 0 {
      EnoughRows(items, rowCount, n - 1);
      var last := Pack(items, rowCount, n - 1).value.last;
      FirstFitMeans(items[n - 1].Left(), last, 0);
      assert Fits(items[n - 1].Left(), last[n - 1]);
    }
  }

  // ----- packRows -----

  /** The row counts 1, 2, ... below `rowCount` that first fit cannot do. */
  ghost predicate FailsBelow(items: seq<PackItem>, rowCount: nat) {
    forall r :: 1 <= r < rowCount ==> Pack(items, r, |items|) == None
  }

  /** `rows` is what first fit does with the fewest rows it manages; past three, the stagger. */
  ghost predicate Settles(items: seq<PackItem>, used: nat, rows: seq<nat>) {
    && |rows| == |items| && 1 <= used <= MAX_ROWS + 1 && FailsBelow(items, used)
    && (used <= MAX_ROWS ==> RowsOf(Pack(items, used, |items|)) == Some(rows))
    && (used > MAX_ROWS ==> forall i :: 0 <= i < |items| ==> rows[i] == i % MAX_ROWS)
  }

  method PackRows(items: seq<PackItem>) returns (rows: seq<nat>)
    ensures exists used :: Settles(items, used, rows)
  {
    for rowCount := 1 to MAX_ROWS + 1
      invariant FailsBelow(items, rowCount)
    {
      var assignments := TryPack(items, rowCount);
      if assignments.Some? {
        rows := assignments.value;
        assert Settles(items, rowCount, rows);
        return;
      }
    }
    rows := seq(|items|, i => i % MAX_ROWS);
    assert Settles(items, MAX_ROWS + 1, rows);
  }

  /**
    * For sorted labels the chosen row count is the true minimum, and the stagger is used exactly when three rows
    * are too few.
    */
  lemma PackRowsIsMinimal(items: seq<PackItem>, used: nat, rows: seq<nat>)
    requires NonNegativeWidths(items) && LeftSorted(items) && Settles(items, used, rows)
    ensures forall r :: 1 <= r < used ==> !IsFeasible(items, r)
    ensures used <= MAX_ROWS ==> IsLayout(items, used, rows)
    ensures used > MAX_ROWS <==> !IsFeasible(items, MAX_ROWS)
  {
    forall r | 1 <= r < used ensures !IsFeasible(items, r) {
      PackIffFeasible(items, r);
    }
    if used <= MAX_ROWS {
      PackIsLayout(items, used, |items|);
      assert items[..|items|] == items;
      assert IsLayout(items, MAX_ROWS, rows);
    }
  }

  // ----- the band -----

  function MaxRow(rows: seq<nat>): int {
    if rows == [] then -1
    else if rows[|rows| - 1] > MaxRow(rows[..|rows| - 1]) then rows[|rows| - 1] else MaxRow(rows[..|rows| - 1])
  }

  lemma {:induction false} MaxRowMeans(rows: seq<nat>)
    ensures forall i :: 0 <= i < |rows| ==> rows[i] <= MaxRow(rows)
    ensures rows != [] ==> MaxRow(rows) >= 0 && MaxRow(rows) in rows
  {
    if rows != [] {
      MaxRowMeans(rows[..|rows| - 1]);
    }
  }

  const LABEL_ROW_Y := [6, 26, 46]

  function BandPxForRows(rowsUsed: int): int
    requires rowsUsed <= MAX_ROWS
  {
    if rowsUsed <= 0 then 0 else LABEL_ROW_Y[rowsUsed - 1] + 8 + 6
  }

  /** The band's height is that of the row count packRows settled on, and the pills keep their distance to the plot. */
  lemma BandMatchesRowCount(items: seq<PackItem>, used: nat, rows: seq<nat>)
    requires items != [] && Settles(items, used, rows)
    ensures MaxRow(rows) + 1 == if used <= MAX_ROWS then used else MAX_ROWS
    ensures forall i :: 0 <= i < |rows| ==> rows[i] < MAX_ROWS && PillClearsPlot(rows[i], MaxRow(rows) + 1)
  {
    var top := if used <= MAX_ROWS then used else MAX_ROWS;
    RowsReachTop(items, used, rows, top);
    HighestRow(rows, top);
    forall i | 0 <= i < |rows| ensures rows[i] < MAX_ROWS && PillClearsPlot(rows[i], top) {
      PillMeetsBand(rows[i], top);
    }
  }

  lemma RowsReachTop(items: seq<PackItem>, used: nat, rows: seq<nat>, top: nat)
    requires items != [] && Settles(items, used, rows) && top == if used <= MAX_ROWS then used else MAX_ROWS
    ensures (forall i :: 0 <= i < |rows| ==> rows[i] < top) && top - 1 in rows
  {
    if used <= MAX_ROWS {
      PackRowsInRange(items, used, |items|);
      LastRowIsUsed(items, used);
    } else {
      FourLabelsAtLeast(items);
      StaggerRows(rows);
    }
  }

  /** Where the plot begins: the chart's grid leaves 16px above it, and the band. */
  function PlotTop(rowsUsed: int): int
    requires rowsUsed <= MAX_ROWS
  {
    16 + BandPxForRows(rowsUsed)
  }

  /**
    * The pill's centre line is inside the band; its 16px box ends 14px above the plot in the last row, and 20px
    * more for each row up.
    */
  predicate PillClearsPlot(row: nat, top: int)
    requires row < MAX_ROWS && top <= MAX_ROWS
  {
    && LABEL_ROW_Y[row] + 8 < BandPxForRows(top)
    && PlotTop(top) - (LABEL_ROW_Y[row] + 16) == 14 + 20 * (top - 1 - row)
  }

  lemma PillMeetsBand(row: nat, top: nat)
    requires row < top <= MAX_ROWS
    ensures PillClearsPlot(row, top)
  {
    assert LABEL_ROW_Y[0] == 6 && LABEL_ROW_Y[1] == 26 && LABEL_ROW_Y[2] == 46;
  }

  lemma StaggerRows(rows: seq<nat>)
    requires |rows| > MAX_ROWS && forall i :: 0 <= i < |rows| ==> rows[i] == i % MAX_ROWS
    ensures (forall i :: 0 <= i < |rows| ==> rows[i] < MAX_ROWS) && MAX_ROWS - 1 in rows
  {
    assert rows[2] == 2;
  }

  lemma HighestRow(rows: seq<nat>, top: nat)
    requires (forall i :: 0 <= i < |rows| ==> rows[i] < top) && top - 1 in rows
    ensures MaxRow(rows) == top - 1
  {
    MaxRowMeans(rows);
  }

  lemma FourLabelsAtLeast(items: seq<PackItem>)
    requires FailsBelow(items, MAX_ROWS + 1)
    ensures |items| > MAX_ROWS
  {
    if |items| <= MAX_ROWS {
      EnoughRows(items, MAX_ROWS, |items|);
    }
  }

  lemma LastRowIsUsed(items: seq<PackItem>, used: nat)
    requires items != [] && used >= 1 && FailsBelow(items, used) && Pack(items, used, |items|).Some?
    ensures used - 1 in Pack(items, used, |items|).value.rows
  {
    var rows := Pack(items, used, |items|).value.rows;
    if used == 1 {
      PackRowsInRange(items, used, |items|);
      assert rows[0] == 0;
    } else if used - 1 !in rows {
      UnusedRow(items, used, |items|);
    }
  }

  lemma {:induction false} PackRowsInRange(items: seq<PackItem>, rowCount: nat, n: nat)
    requires n <= |items| && Pack(items, rowCount, n).Some?
    ensures forall i :: 0 <= i < n ==> Pack(items, rowCount, n).value.rows[i] < rowCount
  {
    if n > 0 {
      PackRowsInRange(items, rowCount, n - 1);
      FirstFitMeans(items[n - 1].Left(), Pack(items, rowCount, n - 1).value.last, 0);
    }
  }

  // ----- horizontal positions -----

  const GRID_LEFT := 56.0
  const GRID_RIGHT := 16.0
  const EDGE_INSET := 2.0

  function Max(a: real, b: real): real { if a >= b then a else b }

  function Min(a: real, b: real): real { if a <= b then a else b }

  function PixelXForIndex(i: nat, numPoints: nat, chartWidth: real): real {
    if numPoints <= 1 then GRID_LEFT
    else GRID_LEFT + (i as real * Max(chartWidth - GRID_LEFT - GRID_RIGHT, 1.0)) / (numPoints - 1) as real
  }

  function ClampLabelX(pixelX: real, labelWidth: real, chartWidth: real): real {
    var half := labelWidth / 2.0;
    var minX := half + EDGE_INSET;
    Min(Max(pixelX, minX), Max(chartWidth - half - EDGE_INSET, minX))
  }

  lemma PixelXIsMonotone(i: nat, j: nat, numPoints: nat, chartWidth: real)
    requires i <= j
    ensures PixelXForIndex(i, numPoints, chartWidth) <= PixelXForIndex(j, numPoints, chartWidth)
  {
    if numPoints > 1 {
      var w, d := Max(chartWidth - GRID_LEFT - GRID_RIGHT, 1.0), (numPoints - 1) as real;
      ScaleMonotone(i as real, j as real, w, d);
    }
  }

  lemma ScaleMonotone(a: real, b: real, w: real, d: real)
    requires a <= b && w > 0.0 && d > 0.0
    ensures (a * w) / d <= (b * w) / d
  {
    assert (b - a) * w >= 0.0;
    assert a * w <= b * w;
  }

  /** A pill lies inside the chart with the inset on both sides exactly when it is narrow enough to. */
  lemma ClampedPillIsInside(pixelX: real, labelWidth: real, chartWidth: real)
    requires labelWidth >= 0.0
    ensures
      var x := ClampLabelX(pixelX, labelWidth, chartWidth);
      (EDGE_INSET <= x - labelWidth / 2.0 && x + labelWidth / 2.0 <= chartWidth - EDGE_INSET)
        <==> labelWidth + 2.0 * EDGE_INSET <= chartWidth
  {}

  /** The labels of increasing data points, when equally wide, reach packRows sorted by left edge. */
  lemma EqualWidthsAreLeftSorted(indices: seq<nat>, numPoints: nat, chartWidth: real, labelWidth: real)
    requires forall i, j :: 0 <= i < j < |indices| ==> indices[i] <= indices[j]
    ensures LeftSorted(seq(|indices|, k requires 0 <= k < |indices| =>
              PackItem(ClampLabelX(PixelXForIndex(indices[k], numPoints, chartWidth), labelWidth, chartWidth),
                labelWidth)))
  {
    forall i, j | 0 <= i < j < |indices|
      ensures ClampLabelX(PixelXForIndex(indices[i], numPoints, chartWidth), labelWidth, chartWidth)
           <= ClampLabelX(PixelXForIndex(indices[j], numPoints, chartWidth), labelWidth, chartWidth)
    {
      PixelXIsMonotone(indices[i], indices[j], numPoints, chartWidth);
    }
  }
}
