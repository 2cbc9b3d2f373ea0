/** The initial records of constants.ts. The source evaluates
    `new Date().getFullYear()` once, when the module loads; here that
    year is the parameter `currentYear`. */
module Constants {
  import opened Types

  /** Five empty population rows for the five years before `currentYear`. */
  function InitialYearData(currentYear: int): (rows: seq<YearData>)
    ensures |rows| == 5
    ensures forall k :: 0 <= k < 5 ==> rows[k].year == (currentYear - 5 + k) as real
    ensures forall k :: 0 <= k < 5 ==>
      rows[k].totalPop == rows[k].urbanPop == rows[k].urbanRate == 0.0 &&
      rows[k].naturalGrowthRate == rows[k].mechanicalGrowthRate == 0.0
  {
    seq(5, i => YearData((currentYear - 5 + i) as real, 0.0, 0.0, 0.0, 0.0, 0.0))
  }

  /** Five empty labour rows for the same five years. */
  function InitialLaborData(currentYear: int): (rows: seq<LaborData>)
    ensures |rows| == 5
    ensures forall k :: 0 <= k < 5 ==>
      rows[k] == LaborData((currentYear - 5 + k) as real, 0.0, 0.0, 0.0)
  {
    seq(5, i => LaborData((currentYear - 5 + i) as real, 0.0, 0.0, 0.0))
  }

  /** The years run from currentYear - 5 to currentYear - 1 without a gap,
      in both tables. */
  lemma InitialYearsConsecutive(currentYear: int)
    ensures InitialYearData(currentYear)[0].year == (currentYear - 5) as real
    ensures InitialYearData(currentYear)[4].year == (currentYear - 1) as real
    ensures forall k :: 0 <= k < 4 ==>
      InitialYearData(currentYear)[k + 1].year == InitialYearData(currentYear)[k].year + 1.0
    ensures forall k :: 0 <= k < 5 ==>
      InitialLaborData(currentYear)[k].year == InitialYearData(currentYear)[k].year
  {
  }

  /** All nine indicators at 0, the three optional ones present. */
  const EmptyLandUse: LandUseIndicators :=
    LandUseIndicators(0.0, 0.0, 0.0, 0.0, 0.0, 0.0, Some(0.0), Some(0.0), Some(0.0))

  const ZeroLaborStructure: LaborStructure := LaborStructure(0.0, 0.0, 0.0)

  /** The forecast a new session starts from. */
  function DefaultForecast(currentYear: int): (d: ForecastData)
    ensures d.planningType == General && d.urbanClass == Type5
    ensures d.id == d.name == d.location == d.createdDate == ""
    ensures d.subdivisions == []
    ensures d.growthThresholdDn == 1.0 && d.totalArea == 0.0 && d.currentDensity == 0.0
    ensures d.naturalGrowthRate5y == 0.0 && d.mechanicalGrowthRate5y == 0.0
    ensures d.laborProjected10y == d.laborProjected20y == LaborStructure(0.0, 0.0, 0.0)
    ensures d.averageStayDays == 1.0 && d.visitorsTotal == 0.0 && d.convertedShortTermPop == 0.0
    ensures d.convertedPopCurrent == d.convertedPop10y == d.convertedPop20y == d.convertedPop50y == 0.0
    ensures d.historicalPop == InitialYearData(currentYear)
    ensures d.historicalLabor == InitialLaborData(currentYear)
  {
    ForecastData(
      id := "",
      name := "",
      location := "",
      planningType := General,
      urbanClass := Type5,
      createdDate := "",
      growthThresholdDn := 1.0,
      totalArea := 0.0,
      currentDensity := 0.0,
      historicalPop := InitialYearData(currentYear),
      historicalLabor := InitialLaborData(currentYear),
      naturalGrowthRate5y := 0.0,
      mechanicalGrowthRate5y := 0.0,
      visitorsTotal := 0.0,
      averageStayDays := 1.0,
      convertedShortTermPop := 0.0,
      laborProjected10y := ZeroLaborStructure,
      laborProjected20y := ZeroLaborStructure,
      convertedPopCurrent := 0.0,
      convertedPop10y := 0.0,
      convertedPop20y := 0.0,
      convertedPop50y := 0.0,
      subdivisions := [])
  }
}
