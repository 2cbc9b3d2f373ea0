/** The report figures of views/Results.tsx: subdivision totals, the two
    chart data sets and the rows of the spreadsheet export. */
module ResultsView {
  import opened Types
  import opened Sums
  import SubdivisionView
  import PopLaborView
  import JsMath
  import Utils

  function AreaOf(s: Subdivision): real { s.area }
  function CurrentPopOf(s: Subdivision): real { s.currentPop }
  function ApprovedPopOf(s: Subdivision): real { s.approvedProjectPop }

  /** totalSubArea: `reduce((sum, s) => sum + s.area, 0)`. */
  function TotalSubArea(subs: seq<Subdivision>): (t: real)
    ensures |subs| == 0 ==> t == 0.0
    ensures (forall k :: 0 <= k < |subs| ==> subs[k].area >= 0.0) ==> t >= 0.0
  {
    SumNonNegative(subs, AreaOf);
    Sum(subs, AreaOf)
  }

  /** totalSubPopCurrent. */
  function TotalSubPopCurrent(subs: seq<Subdivision>): (t: real)
    ensures |subs| == 0 ==> t == 0.0
    ensures (forall k :: 0 <= k < |subs| ==> subs[k].currentPop >= 0.0) ==> t >= 0.0
  {
    SumNonNegative(subs, CurrentPopOf);
    Sum(subs, CurrentPopOf)
  }

  /** The approved-project total of the summary row. */
  function TotalApprovedPop(subs: seq<Subdivision>): (t: real)
    ensures |subs| == 0 ==> t == 0.0
    ensures (forall k :: 0 <= k < |subs| ==> subs[k].approvedProjectPop >= 0.0) ==> t >= 0.0
  {
    SumNonNegative(subs, ApprovedPopOf);
    Sum(subs, ApprovedPopOf)
  }

  /** No subdivisions total 0; one subdivision totals its own figures. */
  lemma TotalsOfEmptyAndSingleton(s: Subdivision)
    ensures TotalSubArea([]) == TotalSubPopCurrent([]) == TotalApprovedPop([]) == 0.0
    ensures TotalSubArea([s]) == s.area
    ensures TotalSubPopCurrent([s]) == s.currentPop
    ensures TotalApprovedPop([s]) == s.approvedProjectPop
  {
    SumSingleton(s, AreaOf);
    SumSingleton(s, CurrentPopOf);
    SumSingleton(s, ApprovedPopOf);
  }

  /** Appending a subdivision adds its figures, and the totals of two lists
      put together are the sums of their totals. */
  lemma TotalsAdd(a: seq<Subdivision>, b: seq<Subdivision>, x: Subdivision)
    ensures TotalSubArea(a + [x]) == TotalSubArea(a) + x.area
    ensures TotalSubPopCurrent(a + [x]) == TotalSubPopCurrent(a) + x.currentPop
    ensures TotalApprovedPop(a + [x]) == TotalApprovedPop(a) + x.approvedProjectPop
    ensures TotalSubArea(a + b) == TotalSubArea(a) + TotalSubArea(b)
    ensures TotalSubPopCurrent(a + b) == TotalSubPopCurrent(a) + TotalSubPopCurrent(b)
    ensures TotalApprovedPop(a + b) == TotalApprovedPop(a) + TotalApprovedPop(b)
  {
    SumSnoc(a, x, AreaOf);
    SumSnoc(a, x, CurrentPopOf);
    SumSnoc(a, x, ApprovedPopOf);
    SumConcat(a, b, AreaOf);
    SumConcat(a, b, CurrentPopOf);
    SumConcat(a, b, ApprovedPopOf);
  }

  /** The totals do not depend on the order of the subdivisions. */
  lemma TotalsIgnoreOrder(a: seq<Subdivision>, b: seq<Subdivision>)
    requires multiset(a) == multiset(b)
    ensures TotalSubArea(a) == TotalSubArea(b)
    ensures TotalSubPopCurrent(a) == TotalSubPopCurrent(b)
    ensures TotalApprovedPop(a) == TotalApprovedPop(b)
  {
    SumPermutation(a, b, AreaOf);
    SumPermutation(a, b, CurrentPopOf);
    SumPermutation(a, b, ApprovedPopOf);
  }

  /** A new subdivision adds nothing to any total. */
  lemma AddSubdivisionKeepsTotals(data: ForecastData, id: string)
    ensures var subs := SubdivisionView.AddSubdivision(data, id).subdivisions;
      && TotalSubArea(subs) == TotalSubArea(data.subdivisions)
      && TotalSubPopCurrent(subs) == TotalSubPopCurrent(data.subdivisions)
      && TotalApprovedPop(subs) == TotalApprovedPop(data.subdivisions)
  {
    var x := SubdivisionView.NewSubdivision(data, id);
    TotalsAdd(data.subdivisions, [], x);
  }

  /** An edit leaves every total whose field it does not write unchanged. */
  lemma {:induction false} EditKeepsOtherTotals(data: ForecastData, id: string,
                                                edit: SubdivisionView.SubdivisionEdit)
    ensures var subs := SubdivisionView.UpdateSubdivision(data, id, edit).subdivisions;
      && (!edit.SetArea? ==> TotalSubArea(subs) == TotalSubArea(data.subdivisions))
      && (!edit.SetCurrentPop? ==> TotalSubPopCurrent(subs) == TotalSubPopCurrent(data.subdivisions))
      && (!edit.SetApprovedProjectPop? ==> TotalApprovedPop(subs) == TotalApprovedPop(data.subdivisions))
    decreases |data.subdivisions|
  {
    var subs := data.subdivisions;
    if |subs| > 0 {
      var n := |subs| - 1;
      var front := data.(subdivisions := subs[..n]);
      EditKeepsOtherTotals(front, id, edit);
      var edited := SubdivisionView.UpdateSubdivision(data, id, edit).subdivisions;
      assert edited[..n] == SubdivisionView.UpdateSubdivision(front, id, edit).subdivisions;
    }
  }

  /** One bar of the population chart. */
  datatype ChartPoint = ChartPoint(name: string, value: real)

  /** popChartData: the current bar falls back to the subdivision total
      when no converted current population has been computed. */
  function PopChartData(data: ForecastData): (points: seq<ChartPoint>)
    ensures |points| == 4
    ensures points[0].value ==
      if data.convertedPopCurrent != 0.0 then data.convertedPopCurrent
      else TotalSubPopCurrent(data.subdivisions)
    ensures points[1].value == data.convertedPop10y
    ensures points[2].value == data.convertedPop20y
    ensures points[3].value == data.convertedPop50y
  {
    [ ChartPoint("Hiện trạng",
        if data.convertedPopCurrent != 0.0 then data.convertedPopCurrent
        else TotalSubPopCurrent(data.subdivisions)),
      ChartPoint("10 Năm", data.convertedPop10y),
      ChartPoint("20 Năm", data.convertedPop20y),
      ChartPoint("50 Năm", data.convertedPop50y) ]
  }

  /** After the base forecast the chart shows its four figures, except that
      a current figure that rounds to 0 gives way to the subdivision total. */
  lemma ChartShowsForecast(data: ForecastData)
    requires |data.historicalPop| > 0
    ensures var r := PopLaborView.RunBaseForecast(data).value;
      var points := PopChartData(r);
      var b, rate := PopLaborView.BasePopulation(data), PopLaborView.CombinedRate(data);
      var base := JsMath.Round(b);
      && (base != 0 ==> points[0].value == base as real)
      && (base == 0 ==> points[0].value == TotalSubPopCurrent(data.subdivisions))
      && points[1].value == JsMath.Round(Utils.CompoundGrowth(b, rate, 10)) as real
      && points[2].value == JsMath.Round(Utils.CompoundGrowth(b, rate, 20)) as real
      && points[3].value == JsMath.Round(Utils.CompoundGrowth(b, rate, 50)) as real
  {
  }

  /** One point of the labour chart, sectors KV1..KV3. */
  datatype LaborPoint = LaborPoint(year: real, kv1: real, kv2: real, kv3: real)

  /** laborChartData: one point per labour row, in the same order. */
  function LaborChartData(data: ForecastData): (points: seq<LaborPoint>)
    ensures |points| == |data.historicalLabor|
    ensures forall k :: 0 <= k < |points| ==>
      var d := data.historicalLabor[k];
      points[k] == LaborPoint(d.year, d.sector1, d.sector2, d.sector3)
  {
    var labor := data.historicalLabor;
    seq(|labor|, k requires 0 <= k < |labor| =>
      LaborPoint(labor[k].year, labor[k].sector1, labor[k].sector2, labor[k].sector3))
  }

  /** A spreadsheet cell before it is turned into text. */
  datatype Cell = Text(text: string) | Number(number: real)

  const HeaderRowCount: nat := 14

  /** The rows handed to the CSV export: a fixed 14-row header, then one row
      per subdivision (name, area, current population) in list order. */
  function ExportRows(data: ForecastData): (rows: seq<seq<Cell>>)
    ensures |rows| == HeaderRowCount + |data.subdivisions|
    ensures forall k :: 0 <= k < |data.subdivisions| ==>
      var s := data.subdivisions[k];
      rows[HeaderRowCount + k] == [Text(s.name), Number(s.area), Number(s.currentPop)]
  {
    var header := [
      [Text("BÁO CÁO DỰ BÁO PHÁT TRIỂN ĐÔ THỊ")],
      [Text("Tên dự án"), Text(data.name)],
      [Text("Địa điểm"), Text(data.location)],
      [Text("Ngày tạo"), Text(data.createdDate)],
      [],
      [Text("DỰ BÁO DÂN SỐ")],
      [Text("Giai đoạn"), Text("Dân số quy đổi")],
      [Text("Hiện trạng"), Number(data.convertedPopCurrent)],
      [Text("10 Năm"), Number(data.convertedPop10y)],
      [Text("20 Năm"), Number(data.convertedPop20y)],
      [Text("50 Năm"), Number(data.convertedPop50y)],
      [],
      [Text("DANH SÁCH PHÂN KHU")],
      [Text("Tên"), Text("Diện tích (ha)"), Text("Dân số HT")]
    ];
    var subs := data.subdivisions;
    header + seq(|subs|, k requires 0 <= k < |subs| =>
      [Text(subs[k].name), Number(subs[k].area), Number(subs[k].currentPop)])
  }
}
