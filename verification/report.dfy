/**
 * The logical content of the weight-and-balance report: the rows of the
 * table, each at the height the page cursor gives it, and the two pairs of
 * lines drawn onto the envelope chart below the table. How the rows and
 * lines are painted (fonts, text widths, columns, colours) is not part of
 * this model.
 */
module Report {
  import opened Rounding
  import opened Stations
  import opened Manifest
  import opened Balance
  import opened Chart
  import opened WeightAndBalance

  /** Vertical distance between two lines of the table. */
  const NEWLINE: int := 15
  /** Extra gap after each station's block. */
  const BLOCK_GAP: int := 10
  /** Height of the column headings. */
  const TABLE_TOP: int := 685
  /** Height of the first station heading: three lines below the column headings. */
  const LOAD_TOP: int := TABLE_TOP - 3 * NEWLINE
  /** How far the chart top lies below the CoG row. */
  const CHART_GAP: int := 50

  datatype Row =
    | ColumnHeads                                                  // "Empty Weight", "Arm", "Moment"
    | EmptyRow(massKg: real, armCm: real, moment: real)           // printed as stored
    | LoadTitle                                                    // "Load"
    | StationHeading(station: Station)                              // printed as Heading(station)
    | ItemRow(name: string, weightKg: real, armCm: real, moment: real)
    | TotalsTitle                                                  // "Totals"
    | TotalsRow(weightKg: real, moment: real)
    | CoGRow(cogCm: real)

  /** A row and the height of the page cursor where it is written. */
  datatype Placed = Placed(row: Row, y: int)

  datatype WbReport = WbReport(table: seq<Placed>, withFuel: LinePair, withoutFuel: LinePair)

  /** Rows written top to bottom: each strictly below the previous one. */
  ghost predicate Descending(rows: seq<Placed>) {
    forall i, j :: 0 <= i < j < |rows| ==> rows[i].y > rows[j].y
  }

  /** The moment column of an item row: the displayed weight times the displayed arm, rounded. */
  function RowMoment(weightKg: real, armCm: real): real {
    Round2(weightKg * armCm)
  }

  /** An item's row: weight and arm rounded for display, and the moment computed from those. */
  function ItemRowFor(item: Item, arm: real): Row {
    var w := Round2(item.weightKg);
    var a := Round2(arm);
    ItemRow(item.name, w, a, RowMoment(w, a))
  }

  /** The rows of one station's items, the j-th of them j + 1 lines below the heading at y. */
  function ItemRows(items: seq<Item>, arm: real, y: int): (r: seq<Placed>)
    ensures |r| == |items|
  {
    if items == [] then []
    else ItemRows(items[..|items| - 1], arm, y) + [Placed(ItemRowFor(items[|items| - 1], arm), y - NEWLINE * |items|)]
  }

  /** The j-th item of a station is written j + 1 lines below its heading. */
  lemma {:induction false} ItemRowsAt(items: seq<Item>, arm: real, y: int, j: nat)
    requires j < |items|
    ensures ItemRows(items, arm, y)[j] == Placed(ItemRowFor(items[j], arm), y - NEWLINE * (j + 1))
  {
    var n := |items| - 1;
    if j < n {
      ItemRowsAt(items[..n], arm, y, j);
    }
  }

  /** A station's heading at y followed by its items. */
  function StationBlock(e: StationLoad, y: int): seq<Placed> {
    [Placed(StationHeading(e.station), y)] + ItemRows(e.items, Arm(e.station), y)
  }

  /** How far a station's block moves the cursor down. */
  function BlockHeight(e: StationLoad): int {
    NEWLINE * |e.items| + NEWLINE + BLOCK_GAP
  }

  function LoadHeight(m: Loading): (h: int)
    ensures h >= 0
  {
    if m == [] then 0 else LoadHeight(m[..|m| - 1]) + BlockHeight(m[|m| - 1])
  }

  /** The number of rows the loading yields: a heading per station and a row per item. */
  function RowCount(m: Loading): (n: nat) {
    if m == [] then 0 else RowCount(m[..|m| - 1]) + 1 + |m[|m| - 1].items|
  }

  /** The station blocks in loading order, the first heading at y. */
  function LoadRows(m: Loading, y: int): seq<Placed> {
    if m == [] then []
    else
      var p := m[..|m| - 1];
      LoadRows(p, y) + StationBlock(m[|m| - 1], y - LoadHeight(p))
  }

  /** The rows above the loads: column headings, the empty aircraft, the "Load" title. */
  function HeadRows(a: Aircraft): seq<Placed> {
    [ Placed(ColumnHeads, TABLE_TOP),
      Placed(EmptyRow(a.emptyMassKg, a.emptyArmCm, a.emptyMoment), TABLE_TOP - NEWLINE),
      Placed(LoadTitle, TABLE_TOP - 2 * NEWLINE) ]
  }

  /** The totals under the loads, the "Totals" title at y. */
  function TotalRows(weightKg: real, moment: real, cog: real, y: int): seq<Placed> {
    [ Placed(TotalsTitle, y),
      Placed(TotalsRow(weightKg, moment), y - NEWLINE),
      Placed(CoGRow(cog), y - 2 * NEWLINE) ]
  }

  /** Where the chart's lines start: CHART_GAP below the CoG row; the loads only push it down. */
  function ChartTop(m: Loading): (r: int)
    ensures r <= LOAD_TOP - 2 * NEWLINE - CHART_GAP
  {
    LOAD_TOP - LoadHeight(m) - 2 * NEWLINE - CHART_GAP
  }

  lemma {:induction false} ItemRowsSnoc(items: seq<Item>, j: nat, arm: real, y: int)
    requires j < |items|
    ensures ItemRows(items[..j + 1], arm, y) ==
      ItemRows(items[..j], arm, y) + [Placed(ItemRowFor(items[j], arm), y - NEWLINE * (j + 1))]
  {
    assert items[..j + 1][..j] == items[..j];
  }

  lemma {:induction false} LoadRowsSnoc(m: Loading, k: nat, y: int)
    requires k < |m|
    ensures LoadRows(m[..k + 1], y) == LoadRows(m[..k], y) + StationBlock(m[k], y - LoadHeight(m[..k]))
    ensures LoadHeight(m[..k + 1]) == LoadHeight(m[..k]) + BlockHeight(m[k])
  {
    assert m[..k + 1] == m[..k] + [m[k]];
    LoadRowsAppend(m[..k], m[k], y);
  }

  lemma {:induction false} LoadRowsAppend(q: Loading, e: StationLoad, y: int)
    ensures LoadRows(q + [e], y) == LoadRows(q, y) + StationBlock(e, y - LoadHeight(q))
    ensures LoadHeight(q + [e]) == LoadHeight(q) + BlockHeight(e)
  {
    var p := q + [e];
    assert p[..|p| - 1] == q;
  }

  /** What `create_pdf` lays out for a frozen aircraft; it fails where CoG fails. */
  function ReportOf(a: Aircraft): Result<WbReport> {
    match CoG(a, true)
    case Err(e) => Err(e)
    case Ok(cog) =>
      match CoG(a, false)
      case Err(e) => Err(e)
      case Ok(cogWithoutFuel) =>
        var top := ChartTop(a.loading) as real;
        Ok(WbReport(
          HeadRows(a) + LoadRows(a.loading, LOAD_TOP)
            + TotalRows(TotalWeight(a, true), TotalMoment(a, true), cog, LOAD_TOP - LoadHeight(a.loading)),
          LinesAt(cog, TotalWeight(a, true), top),
          LinesAt(cogWithoutFuel, TotalWeight(a, false), top)))
  }

  /**
   * The inner loop of `create_pdf` over one station's items: each item a
   * line lower, its weight and the station's arm rounded before they are
   * written (the arm rounded again for every item).
   */
  method WriteItems(items: seq<Item>, stationArm: real, y: int) returns (rows: seq<Placed>, bottom: int)
    ensures rows == ItemRows(items, stationArm, y)
    ensures bottom == y - NEWLINE * |items|
  {
    rows := [];
    bottom := y;
    var arm := stationArm;
    for j := 0 to |items|
      invariant bottom == y - NEWLINE * j
      invariant Round2(arm) == Round2(stationArm)
      invariant rows == ItemRows(items[..j], stationArm, y)
    {
      var item := items[j];
      var weight := Round2(item.weightKg);
      Round2Idempotent(arm);
      arm := Round2(arm);
      bottom := bottom - NEWLINE;
      rows := rows + [Placed(ItemRow(item.name, weight, arm, RowMoment(weight, arm)), bottom)];
      ItemRowsSnoc(items, j, stationArm, y);
    }
    assert items[..|items|] == items;
  }

  /**
   * The outer loop of `create_pdf` over the loading: a heading per station,
   * then its items, then a wider gap.
   */
  method WriteLoads(loading: Loading, arms: map<Station, real>, top: int) returns (rows: seq<Placed>, bottom: int)
    requires arms == ArmTable()
    ensures rows == LoadRows(loading, top)
    ensures bottom == top - LoadHeight(loading)
  {
    rows := [];
    bottom := top;
    for k := 0 to |loading|
      invariant bottom == top - LoadHeight(loading[..k])
      invariant rows == LoadRows(loading[..k], top)
    {
      var entry := loading[k];
      ArmTableComplete(entry.station);
      var arm := arms[entry.station];
      var heading := [Placed(StationHeading(entry.station), bottom)];
      var itemRows, below := WriteItems(entry.items, arm, bottom);
      assert heading + itemRows == StationBlock(entry, bottom);
      rows := rows + (heading + itemRows);
      LoadRowsSnoc(loading, k, top);
      bottom := below - (NEWLINE + BLOCK_GAP);
    }
    assert loading[..|loading|] == loading;
  }

  /** `create_pdf` without the drawing: the cursor walks down the page as rows are written. */
  method CreatePdf(plane: C172S_WB) returns (r: Result<WbReport>)
    requires plane.Valid()
    ensures r == ReportOf(plane.Snapshot())
  {
    var start := TABLE_TOP;
    var table := [Placed(ColumnHeads, start)];
    start := start - NEWLINE;
    table := table + [Placed(EmptyRow(plane.emptyMassKg, plane.emptyArmCm, plane.emptyMoment), start)];
    start := start - NEWLINE;
    table := table + [Placed(LoadTitle, start)];
    start := start - NEWLINE;
    ghost var a := plane.Snapshot();
    assert table == HeadRows(a);
    var rows;
    rows, start := WriteLoads(plane.loading, plane.arms, start);
    table := table + rows;
    ghost var loads := table;
    ghost var bottom := start;
    table := table + [Placed(TotalsTitle, start)];
    start := start - NEWLINE;
    var weight := plane.TotalWeight(true);
    var moment := plane.TotalMoment(true);
    table := table + [Placed(TotalsRow(weight, moment), start)];
    start := start - NEWLINE;
    var cog := plane.CoG(true);
    if cog.Err? {
      return Err(cog.error);
    }
    table := table + [Placed(CoGRow(cog.value), start)];
    start := start - CHART_GAP;
    var cogWithoutFuel := plane.CoG(false);
    if cogWithoutFuel.Err? {
      return Err(cogWithoutFuel.error);
    }
    var weightWithoutFuel := plane.TotalWeight(false);
    assert table == loads + TotalRows(weight, moment, cog.value, bottom);
    assert start == ChartTop(a.loading);
    r := Ok(WbReport(
      table,
      LinesAt(cog.value, weight, start as real),
      LinesAt(cogWithoutFuel.value, weightWithoutFuel, start as real)));
  }

  // ---------------------------------------------------------------------
  // The layout of the table

  lemma {:induction false} LoadRowsLength(m: Loading, y: int)
    ensures |LoadRows(m, y)| == RowCount(m)
  {
    if m != [] {
      LoadRowsLength(m[..|m| - 1], y);
    }
  }

  /** Row counts and heights only grow as stations are added. */
  lemma {:induction false} PrefixGrows(m: Loading, k: nat)
    requires k <= |m|
    ensures RowCount(m[..k]) <= RowCount(m)
    ensures LoadHeight(m[..k]) <= LoadHeight(m)
  {
    if k < |m| {
      var p := m[..|m| - 1];
      assert m[..k] == p[..k];
      PrefixGrows(p, k);
    } else {
      assert m[..k] == m;
    }
  }

  /**
   * The k-th station's block (its heading, then its items) sits in the
   * table right after the blocks of the stations loaded before it, with its
   * heading as far below the top as those blocks are tall.
   */
  lemma {:induction false} LoadRowsBlock(m: Loading, y: int, k: nat)
    requires k < |m|
    ensures RowCount(m[..k + 1]) == RowCount(m[..k]) + 1 + |m[k].items| <= |LoadRows(m, y)|
    ensures LoadRows(m, y)[RowCount(m[..k])..RowCount(m[..k + 1])] == StationBlock(m[k], y - LoadHeight(m[..k]))
    decreases |m|, 1
  {
    if k == |m| - 1 {
      LastBlock(m, y, k);
    } else {
      EarlierBlock(m, y, k);
    }
  }

  lemma {:induction false} LastBlock(m: Loading, y: int, k: nat)
    requires k == |m| - 1
    ensures RowCount(m[..k + 1]) == RowCount(m[..k]) + 1 + |m[k].items| <= |LoadRows(m, y)|
    ensures LoadRows(m, y)[RowCount(m[..k])..RowCount(m[..k + 1])] == StationBlock(m[k], y - LoadHeight(m[..k]))
  {
    var p := m[..k];
    assert m[..k + 1] == m;
    LoadRowsLength(p, y);
    LoadRowsLength(m, y);
    SliceOfSuffix(LoadRows(p, y), StationBlock(m[k], y - LoadHeight(p)));
  }

  lemma {:induction false} EarlierBlock(m: Loading, y: int, k: nat)
    requires k < |m| - 1
    ensures RowCount(m[..k + 1]) == RowCount(m[..k]) + 1 + |m[k].items| <= |LoadRows(m, y)|
    ensures LoadRows(m, y)[RowCount(m[..k])..RowCount(m[..k + 1])] == StationBlock(m[k], y - LoadHeight(m[..k]))
    decreases |m|, 0
  {
    var p := m[..|m| - 1];
    SharedPrefix(m, |m| - 1, k);
    LoadRowsBlock(p, y, k);
    PrefixGrows(p, k + 1);
    LoadRowsLength(p, y);
    SliceOfPrefix(LoadRows(p, y), StationBlock(m[|m| - 1], y - LoadHeight(p)), RowCount(p[..k]), RowCount(p[..k + 1]));
  }

  /** Cutting a sequence at n does not change what lies before k. */
  lemma SharedPrefix(m: Loading, n: nat, k: nat)
    requires k < n <= |m|
    ensures m[..k] == m[..n][..k] && m[..k + 1] == m[..n][..k + 1] && m[k] == m[..n][k]
  {
  }

  lemma SliceOfPrefix(a: seq<Placed>, b: seq<Placed>, lo: nat, hi: nat)
    requires lo <= hi <= |a|
    ensures (a + b)[lo..hi] == a[lo..hi]
  {
  }

  lemma SliceOfSuffix(a: seq<Placed>, b: seq<Placed>)
    ensures (a + b)[|a|..|a| + |b|] == b
  {
  }

  /** Every row of the loads lies between the top and the bottom of the loads. */
  lemma {:induction false} LoadRowsDescend(m: Loading, y: int)
    ensures Descending(LoadRows(m, y))
    ensures forall i :: 0 <= i < |LoadRows(m, y)| ==> y - LoadHeight(m) < LoadRows(m, y)[i].y <= y
  {
    if m != [] {
      var p := m[..|m| - 1];
      var e := m[|m| - 1];
      var y0 := y - LoadHeight(p);
      LoadRowsDescend(p, y);
      StationBlockDescends(e, y0);
      ConcatDescends(LoadRows(p, y), StationBlock(e, y0), y0);
    }
  }

  /** Within a block, each row is exactly one line below the previous one, all above the block's bottom gap. */
  lemma StationBlockDescends(e: StationLoad, y: int)
    ensures forall i :: 0 <= i < |StationBlock(e, y)| ==> StationBlock(e, y)[i].y == y - NEWLINE * i
    ensures Descending(StationBlock(e, y))
    ensures forall i :: 0 <= i < |StationBlock(e, y)| ==> y - BlockHeight(e) < StationBlock(e, y)[i].y <= y
  {
    var b := StationBlock(e, y);
    forall i | 0 < i < |b|
      ensures b[i].y == y - NEWLINE * i
    {
      ItemRowsAt(e.items, Arm(e.station), y, i - 1);
    }
  }

  /** Two descending runs, the first wholly above `mid` and the second not above it, descend together. */
  lemma ConcatDescends(a: seq<Placed>, b: seq<Placed>, mid: int)
    requires Descending(a) && Descending(b)
    requires forall i :: 0 <= i < |a| ==> a[i].y > mid
    requires forall i :: 0 <= i < |b| ==> b[i].y <= mid
    ensures Descending(a + b)
  {
    var c := a + b;
    forall i, j | 0 <= i < j < |c|
      ensures c[i].y > c[j].y
    {
      if j < |a| {
        assert c[i] == a[i] && c[j] == a[j];
      } else if i < |a| {
        assert c[i] == a[i] && c[j] == b[j - |a|];
      } else {
        assert c[i] == b[i - |a|] && c[j] == b[j - |a|];
      }
    }
  }

  /**
   * The report's table is written strictly downwards: column headings,
   * the empty aircraft, "Load", a block per loaded station, the totals and
   * the CoG; and the chart's lines start below its last row.
   */
  lemma ReportLayout(a: Aircraft)
    requires ReportOf(a).Ok?
    ensures var t := ReportOf(a).value.table;
      && |t| == 6 + RowCount(a.loading)
      && Descending(t)
      && t[|t| - 1] == Placed(CoGRow(CoG(a, true).value), ChartTop(a.loading) + CHART_GAP)
      && ReportOf(a).value.withFuel.vertical.y1 == ChartTop(a.loading) as real
      && ReportOf(a).value.withoutFuel.vertical.y1 == ChartTop(a.loading) as real
  {
    TableDescends(a, TotalWeight(a, true), TotalMoment(a, true), CoG(a, true).value);
  }

  /** The totals row, second to last, holds the weight and the moment with fuel, a line above the CoG row. */
  lemma ReportTotals(a: Aircraft)
    requires ReportOf(a).Ok?
    ensures var t := ReportOf(a).value.table;
      && |t| >= 2
      && t[|t| - 2] == Placed(TotalsRow(TotalWeight(a, true), TotalMoment(a, true)), ChartTop(a.loading) + CHART_GAP + NEWLINE)
  {
    ReportLayout(a);
    LoadRowsLength(a.loading, LOAD_TOP);
  }

  /** The table for any totals: its length, its order, and its last row just above the chart gap. */
  lemma TableDescends(a: Aircraft, weightKg: real, moment: real, cog: real)
    ensures var t := HeadRows(a) + LoadRows(a.loading, LOAD_TOP) + TotalRows(weightKg, moment, cog, LOAD_TOP - LoadHeight(a.loading));
      && |t| == 6 + RowCount(a.loading)
      && Descending(t)
      && t[|t| - 1] == Placed(CoGRow(cog), ChartTop(a.loading) + CHART_GAP)
  {
    var m := a.loading;
    var bottom := LOAD_TOP - LoadHeight(m);
    var head := HeadRows(a);
    var loads := LoadRows(m, LOAD_TOP);
    var totals := TotalRows(weightKg, moment, cog, bottom);
    LoadRowsLength(m, LOAD_TOP);
    LoadRowsDescend(m, LOAD_TOP);
    assert Descending(head);
    assert Descending(totals);
    ConcatDescends(head, loads, LOAD_TOP);
    AllAbove(head, loads, bottom);
    ConcatDescends(head + loads, totals, bottom);
  }

  /** The head rows and the load rows all lie above the bottom of the loads. */
  lemma AllAbove(head: seq<Placed>, loads: seq<Placed>, bottom: int)
    requires forall i :: 0 <= i < |head| ==> head[i].y > bottom
    requires forall i :: 0 <= i < |loads| ==> loads[i].y > bottom
    ensures forall i :: 0 <= i < |head + loads| ==> (head + loads)[i].y > bottom
  {
    forall i | 0 <= i < |head + loads|
      ensures (head + loads)[i].y > bottom
    {
      if i >= |head| {
        assert (head + loads)[i] == loads[i - |head|];
      }
    }
  }

  /**
   * For a weighed aircraft whose loads are not negative, the report always
   * exists: the totals row and the CoG row show the with-fuel scenario, and
   * the line for the weight without fuel is never above the one with fuel.
   */
  lemma ReportExists(a: Aircraft)
    requires ValidAircraft(a)
    requires NonNegative(a.loading)
    ensures ReportOf(a).Ok?
    ensures ReportOf(a).value.withoutFuel.horizontal.y1 <= ReportOf(a).value.withFuel.horizontal.y1
    ensures ReportOf(a).value.withFuel.vertical.x1 == CoGLineX(CoG(a, true).value)
    ensures ReportOf(a).value.withoutFuel.vertical.x1 == CoGLineX(CoG(a, false).value)
  {
    TotalWeightPositive(a, true);
    TotalWeightPositive(a, false);
    StationWeightNonNegative(a.loading, Stations.Fuel);
    TotalWeightFuelMonotone(a);
    var top := ChartTop(a.loading) as real;
    var w, v := TotalWeight(a, false), TotalWeight(a, true);
    if w < v {
      WeightLineRises(w, v, CoG(a, false).value, CoG(a, true).value, top);
    }
  }
}
