/** The editing handlers of views/PopLaborInput.tsx: historical rows,
    visitor conversion and the base forecast. */
module PopLaborView {
  import opened Types
  import opened JsMath
  import opened Sums
  import Utils

  // ---------------------------------------------------------------
  // Historical population rows
  // ---------------------------------------------------------------

  /** The columns of a population row (`keyof YearData`). */
  datatype YearField =
    | Year | TotalPop | UrbanPop | UrbanRate | NaturalGrowthRate | MechanicalGrowthRate

  /** `item.naturalGrowthRate || 0`: a real number is never NaN, so the
      fallback never applies. */
  function NaturalRateOf(row: YearData): real { row.naturalGrowthRate }

  function MechanicalRateOf(row: YearData): real { row.mechanicalGrowthRate }

  /** The row after `{ ...row, [field]: val }` and, for the two population
      columns, the recomputed urbanisation rate. */
  function EditRow(row: YearData, field: YearField, val: real): (r: YearData)
    ensures field == Year ==> r == row.(year := val)
    ensures field == NaturalGrowthRate ==> r == row.(naturalGrowthRate := val)
    ensures field == MechanicalGrowthRate ==> r == row.(mechanicalGrowthRate := val)
    ensures field == UrbanRate ==> r == row.(urbanRate := val)
    ensures field == TotalPop ==>
      r == row.(totalPop := val, urbanRate := Utils.UrbanRate(row.urbanPop, val))
    ensures field == UrbanPop ==>
      r == row.(urbanPop := val, urbanRate := Utils.UrbanRate(val, row.totalPop))
  {
    var updated := match field
      case Year => row.(year := val)
      case TotalPop => row.(totalPop := val)
      case UrbanPop => row.(urbanPop := val)
      case UrbanRate => row.(urbanRate := val)
      case NaturalGrowthRate => row.(naturalGrowthRate := val)
      case MechanicalGrowthRate => row.(mechanicalGrowthRate := val);
    if field == UrbanPop || field == TotalPop then
      updated.(urbanRate := Utils.UrbanRate(updated.urbanPop, updated.totalPop))
    else
      updated
  }

  /** A row whose stored urbanisation rate is the one its populations give. */
  predicate RateConsistent(row: YearData)
  {
    row.urbanRate == Utils.UrbanRate(row.urbanPop, row.totalPop)
  }

  /** The mean of one rate column rounded to two decimals; 0 for no rows. */
  function AverageRate(rows: seq<YearData>, rate: YearData -> real): (r: real)
    ensures |rows| == 0 ==> r == 0.0
    ensures var m := if |rows| > 0 then Sum(rows, rate) / |rows| as real else 0.0;
      && (|rows| > 0 && m >= 0.0 ==> m - 0.005 < r <= m + 0.005)
      && (|rows| > 0 && m < 0.0 ==> m - 0.005 <= r < m + 0.005)
    ensures (r * 100.0).Floor as real == r * 100.0
  {
    if |rows| > 0 then ToFixed2(Sum(rows, rate) / |rows| as real) else 0.0
  }

  /** The snapshot that handlePopChange(index, field, val) hands to onChange. */
  function PopEdited(data: ForecastData, index: nat, field: YearField, val: real): ForecastData
    requires index < |data.historicalPop|
  {
    var hist := data.historicalPop[index := EditRow(data.historicalPop[index], field, val)];
    data.(historicalPop := hist,
          naturalGrowthRate5y := AverageRate(hist, NaturalRateOf),
          mechanicalGrowthRate5y := AverageRate(hist, MechanicalRateOf))
  }

  /** handlePopChange: copy the rows, replace row `index`, then add up the
      two rate columns in one pass and store their rounded means. */
  method HandlePopChange(data: ForecastData, index: nat, field: YearField, val: real)
    returns (r: ForecastData)
    requires index < |data.historicalPop|
    ensures r == PopEdited(data, index, field, val)
  {
    var newHist := data.historicalPop;
    newHist := newHist[index := EditRow(newHist[index], field, val)];
    var sumNat, sumMech, count := 0.0, 0.0, 0;
    var i := 0;
    while i < |newHist|
      invariant 0 <= i <= |newHist|
      invariant count == i
      invariant sumNat == Sum(newHist[..i], NaturalRateOf)
      invariant sumMech == Sum(newHist[..i], MechanicalRateOf)
    {
      assert newHist[..i + 1] == newHist[..i] + [newHist[i]];
      SumSnoc(newHist[..i], newHist[i], NaturalRateOf);
      SumSnoc(newHist[..i], newHist[i], MechanicalRateOf);
      sumNat := sumNat + newHist[i].naturalGrowthRate;
      sumMech := sumMech + newHist[i].mechanicalGrowthRate;
      count := count + 1;
      i := i + 1;
    }
    assert newHist[..i] == newHist;
    var avgNat := if count > 0 then ToFixed2(sumNat / count as real) else 0.0;
    var avgMech := if count > 0 then ToFixed2(sumMech / count as real) else 0.0;
    r := data.(historicalPop := newHist,
               naturalGrowthRate5y := avgNat,
               mechanicalGrowthRate5y := avgMech);
  }

  /** Only row `index` changes, and in it only the edited column (and the
      urbanisation rate, for a population column). */
  lemma PopEditChangesOneRow(data: ForecastData, index: nat, field: YearField, val: real)
    requires index < |data.historicalPop|
    ensures var r := PopEdited(data, index, field, val);
      && |r.historicalPop| == |data.historicalPop|
      && (forall k :: 0 <= k < |r.historicalPop| && k != index ==>
            r.historicalPop[k] == data.historicalPop[k])
      && r.historicalPop[index] == EditRow(data.historicalPop[index], field, val)
      && r == data.(historicalPop := r.historicalPop,
                    naturalGrowthRate5y := r.naturalGrowthRate5y,
                    mechanicalGrowthRate5y := r.mechanicalGrowthRate5y)
  {
  }

  /** Editing a population column leaves the row with the rate its new
      populations give; editing any column but the rate itself keeps a
      consistent row consistent. */
  lemma EditRowKeepsRateConsistent(row: YearData, field: YearField, val: real)
    ensures field == TotalPop || field == UrbanPop ==> RateConsistent(EditRow(row, field, val))
    ensures field != UrbanRate && RateConsistent(row) ==> RateConsistent(EditRow(row, field, val))
  {
  }

  /** An empty history averages to 0. */
  lemma AverageOfNoRows(rate: YearData -> real)
    ensures AverageRate([], rate) == 0.0
  {
  }

  /** Reordering the rows changes neither average. */
  lemma AverageIgnoresOrder(rows: seq<YearData>, perm: seq<YearData>, rate: YearData -> real)
    requires multiset(rows) == multiset(perm)
    ensures AverageRate(rows, rate) == AverageRate(perm, rate)
  {
    SumPermutation(rows, perm, rate);
    assert |rows| == |multiset(rows)| == |multiset(perm)| == |perm|;
  }

  /** A history whose every rate is 0 averages to 0. */
  lemma AverageOfZeroRates(rows: seq<YearData>, rate: YearData -> real)
    requires forall k :: 0 <= k < |rows| ==> rate(rows[k]) == 0.0
    ensures AverageRate(rows, rate) == 0.0
  {
    SumOfZeros(rows, rate);
  }

  /** The derived parts of a snapshot that come from its population rows:
      every row's urbanisation rate and the two five-year averages. */
  predicate HistoryConverged(data: ForecastData)
  {
    && (forall k :: 0 <= k < |data.historicalPop| ==> RateConsistent(data.historicalPop[k]))
    && data.naturalGrowthRate5y == AverageRate(data.historicalPop, NaturalRateOf)
    && data.mechanicalGrowthRate5y == AverageRate(data.historicalPop, MechanicalRateOf)
  }

  /** Every edit the table offers (all columns but the derived rate) keeps
      the derived fields in step with the rows. */
  lemma PopEditKeepsHistoryConverged(data: ForecastData, index: nat, field: YearField, val: real)
    requires index < |data.historicalPop|
    requires HistoryConverged(data) && field != UrbanRate
    ensures HistoryConverged(PopEdited(data, index, field, val))
  {
    var r := PopEdited(data, index, field, val);
    forall k | 0 <= k < |r.historicalPop|
      ensures RateConsistent(r.historicalPop[k])
    {
      if k == index {
        EditRowKeepsRateConsistent(data.historicalPop[index], field, val);
      }
    }
  }

  // ---------------------------------------------------------------
  // Historical labour rows
  // ---------------------------------------------------------------

  datatype LaborField = LaborYear | Sector1 | Sector2 | Sector3

  function EditLaborRow(row: LaborData, field: LaborField, val: real): (r: LaborData)
    ensures r.year == (if field == LaborYear then val else row.year)
    ensures r.sector1 == (if field == Sector1 then val else row.sector1)
    ensures r.sector2 == (if field == Sector2 then val else row.sector2)
    ensures r.sector3 == (if field == Sector3 then val else row.sector3)
  {
    match field
    case LaborYear => row.(year := val)
    case Sector1 => row.(sector1 := val)
    case Sector2 => row.(sector2 := val)
    case Sector3 => row.(sector3 := val)
  }

  /** handleLaborChange: one column of one labour row; nothing else changes. */
  function LaborEdited(data: ForecastData, index: nat, field: LaborField, val: real): (r: ForecastData)
    requires index < |data.historicalLabor|
    ensures |r.historicalLabor| == |data.historicalLabor|
    ensures forall k :: 0 <= k < |r.historicalLabor| && k != index ==>
      r.historicalLabor[k] == data.historicalLabor[k]
    ensures r == data.(historicalLabor := r.historicalLabor)
  {
    data.(historicalLabor := data.historicalLabor[index := EditLaborRow(data.historicalLabor[index], field, val)])
  }

  /** The edited labour column reads back the new value; the others keep theirs. */
  lemma LaborEditReadsBack(data: ForecastData, index: nat, field: LaborField, val: real)
    requires index < |data.historicalLabor|
    ensures var old_row := data.historicalLabor[index];
      var row := LaborEdited(data, index, field, val).historicalLabor[index];
      && row.year == (if field == LaborYear then val else old_row.year)
      && row.sector1 == (if field == Sector1 then val else old_row.sector1)
      && row.sector2 == (if field == Sector2 then val else old_row.sector2)
      && row.sector3 == (if field == Sector3 then val else old_row.sector3)
  {
  }

  // ---------------------------------------------------------------
  // Short-term visitors
  // ---------------------------------------------------------------

  /** N0 = 2 * Nt * m / 365, with 0 when either input is 0. The guard only
      matters for NaN: on the reals the formula already gives 0 there. */
  function ShortTermConversion(nt: real, m: real): (n0: real)
    ensures nt == 0.0 || m == 0.0 ==> n0 == 0.0
    ensures n0 == 2.0 * nt * m / 365.0
  {
    if nt == 0.0 || m == 0.0 then 0.0 else 2.0 * nt * m / 365.0
  }

  /** More visitors, or longer stays, never give fewer equivalent residents. */
  lemma ShortTermConversionMonotone(nt: real, nt': real, m: real, m': real)
    requires 0.0 <= nt <= nt' && 0.0 <= m <= m'
    ensures ShortTermConversion(nt, m) <= ShortTermConversion(nt', m')
    ensures Round(ShortTermConversion(nt, m)) <= Round(ShortTermConversion(nt', m'))
  {
    ScaleMonotone(m, nt, nt');
    ScaleMonotone(nt', m, m');
    assert nt * m <= nt' * m';
    RoundMonotone(ShortTermConversion(nt, m), ShortTermConversion(nt', m'));
  }

  datatype VisitorField = VisitorsTotal | AverageStayDays

  /** handleVisitorChange: store the input and the rounded N0 computed from
      it and the other, unchanged, input. */
  function VisitorEdited(data: ForecastData, field: VisitorField, value: real): (r: ForecastData)
    ensures r.visitorsTotal == (if field == VisitorsTotal then value else data.visitorsTotal)
    ensures r.averageStayDays == (if field == AverageStayDays then value else data.averageStayDays)
    ensures r.convertedShortTermPop == Round(ShortTermConversion(r.visitorsTotal, r.averageStayDays)) as real
    ensures r == data.(visitorsTotal := r.visitorsTotal,
                       averageStayDays := r.averageStayDays,
                       convertedShortTermPop := r.convertedShortTermPop)
  {
    var newData := match field
      case VisitorsTotal => data.(visitorsTotal := value)
      case AverageStayDays => data.(averageStayDays := value);
    var n0 := ShortTermConversion(
      if field == VisitorsTotal then value else data.visitorsTotal,
      if field == AverageStayDays then value else data.averageStayDays);
    newData.(convertedShortTermPop := Round(n0) as real)
  }

  /** A snapshot whose stored N0 is the one its two visitor inputs give. */
  predicate ConversionConverged(data: ForecastData)
  {
    data.convertedShortTermPop == Round(ShortTermConversion(data.visitorsTotal, data.averageStayDays)) as real
  }

  /** Editing a visitor input again with the value it already has changes nothing. */
  lemma VisitorEditIdempotent(data: ForecastData, field: VisitorField, value: real)
    ensures var once := VisitorEdited(data, field, value);
      VisitorEdited(once, field, value) == once && ConversionConverged(once)
  {
  }

  // ---------------------------------------------------------------
  // Base forecast
  // ---------------------------------------------------------------

  /** The last historical total plus the converted visitors. */
  function BasePopulation(data: ForecastData): real
    requires |data.historicalPop| > 0
  {
    data.historicalPop[|data.historicalPop| - 1].totalPop + data.convertedShortTermPop
  }

  function CombinedRate(data: ForecastData): real
  {
    data.naturalGrowthRate5y + data.mechanicalGrowthRate5y
  }

  /** runBaseForecast. Every horizon is grown from the same base, and all
      four results are rounded. With no history rows the source's lookup of
      the last row throws and nothing is stored: `None`. */
  function RunBaseForecast(data: ForecastData): (r: Option<ForecastData>)
    ensures r.Some? <==> |data.historicalPop| > 0
    ensures r.Some? ==>
      var base, rate := BasePopulation(data), CombinedRate(data);
      && r.value.convertedPopCurrent == Round(base) as real
      && r.value.convertedPop10y == Round(Utils.CompoundGrowth(base, rate, 10)) as real
      && r.value.convertedPop20y == Round(Utils.CompoundGrowth(base, rate, 20)) as real
      && r.value.convertedPop50y == Round(Utils.CompoundGrowth(base, rate, 50)) as real
      && r.value == data.(convertedPopCurrent := r.value.convertedPopCurrent,
                          convertedPop10y := r.value.convertedPop10y,
                          convertedPop20y := r.value.convertedPop20y,
                          convertedPop50y := r.value.convertedPop50y)
  {
    if |data.historicalPop| == 0 then None
    else
      var lastHistoricalPop := data.historicalPop[|data.historicalPop| - 1].totalPop;
      var currentBasePop := lastHistoricalPop + data.convertedShortTermPop;
      var totalRate := data.naturalGrowthRate5y + data.mechanicalGrowthRate5y;
      var p10 := Utils.CompoundGrowth(currentBasePop, totalRate, 10);
      var p20 := Utils.CompoundGrowth(currentBasePop, totalRate, 20);
      var p50 := Utils.CompoundGrowth(currentBasePop, totalRate, 50);
      Some(data.(convertedPopCurrent := Round(currentBasePop) as real,
                 convertedPop10y := Round(p10) as real,
                 convertedPop20y := Round(p20) as real,
                 convertedPop50y := Round(p50) as real))
  }

  /** Running the forecast again on its own result gives the same snapshot. */
  lemma RunBaseForecastIdempotent(data: ForecastData)
    requires |data.historicalPop| > 0
    ensures RunBaseForecast(RunBaseForecast(data).value) == RunBaseForecast(data)
  {
  }

  /** Because each horizon is grown from the unrounded base, the 20- and
      50-year figures equal the 10-year growth continued without rounding
      in between: no rounding error is carried from one horizon to the next. */
  lemma HorizonsShareOneBase(data: ForecastData)
    requires |data.historicalPop| > 0
    ensures var base, rate := BasePopulation(data), CombinedRate(data);
      var p10 := Utils.CompoundGrowth(base, rate, 10);
      var r := RunBaseForecast(data).value;
      && r.convertedPop20y == Round(Utils.CompoundGrowth(p10, rate, 10)) as real
      && r.convertedPop50y == Round(Utils.CompoundGrowth(Utils.CompoundGrowth(p10, rate, 10), rate, 30)) as real
  {
    var base, rate := BasePopulation(data), CombinedRate(data);
    Utils.GrowthComposes(base, rate, 10, 10);
    Utils.GrowthComposes(base, rate, 20, 30);
  }

  /** With a non-negative base and rate the four figures never decrease
      with the horizon. */
  lemma HorizonsOrdered(data: ForecastData)
    requires |data.historicalPop| > 0
    requires BasePopulation(data) >= 0.0 && CombinedRate(data) >= 0.0
    ensures var r := RunBaseForecast(data).value;
      r.convertedPopCurrent <= r.convertedPop10y <= r.convertedPop20y <= r.convertedPop50y
  {
    var base, rate := BasePopulation(data), CombinedRate(data);
    Utils.GrowthNonDecreasing(base, rate, 10, 20);
    Utils.GrowthNonDecreasing(base, rate, 20, 50);
    RoundMonotone(base, Utils.CompoundGrowth(base, rate, 10));
    RoundMonotone(Utils.CompoundGrowth(base, rate, 10), Utils.CompoundGrowth(base, rate, 20));
    RoundMonotone(Utils.CompoundGrowth(base, rate, 20), Utils.CompoundGrowth(base, rate, 50));
  }

  /** With both average rates at 0 every horizon is the rounded base. */
  lemma ZeroRateKeepsBase(data: ForecastData)
    requires |data.historicalPop| > 0 && CombinedRate(data) == 0.0
    ensures var r := RunBaseForecast(data).value;
      r.convertedPop10y == r.convertedPop20y == r.convertedPop50y == r.convertedPopCurrent
  {
    var base := BasePopulation(data);
    Utils.GrowthAtZeroRate(base, 10);
    Utils.GrowthAtZeroRate(base, 20);
    Utils.GrowthAtZeroRate(base, 50);
  }

  /** The projection reads nothing but the derived fields of the history
      and of the visitor conversion, so it keeps them converged. */
  lemma RunBaseForecastKeepsConverged(data: ForecastData)
    requires |data.historicalPop| > 0
    requires HistoryConverged(data) && ConversionConverged(data)
    ensures HistoryConverged(RunBaseForecast(data).value)
    ensures ConversionConverged(RunBaseForecast(data).value)
  {
  }
}
