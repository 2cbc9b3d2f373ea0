/** The records of a forecast, as declared in types.ts. Every JavaScript
    `number` is a `real`; every string is a `seq<char>`. */
module Types {

  datatype Option<+T> = None | Some(value: T)

  /** The screens of the application. */
  datatype ViewState =
    | Home | History | GeneralInput | PopLaborInput | SubdivisionInput | Results | Settings

  /** 'QH Chung', 'QH Phân khu', 'QH Chi tiết', 'Khác'. */
  datatype PlanningType = General | Zoning | Detailed | Other

  datatype UrbanClass = Special | Type1 | Type2 | Type3 | Type4 | Type5

  /** One year of the population history; `urbanRate` is derived. */
  datatype YearData = YearData(
    year: real,
    totalPop: real,
    urbanPop: real,
    urbanRate: real,
    naturalGrowthRate: real,
    mechanicalGrowthRate: real)

  /** One year of the labour history, workers per economic sector. */
  datatype LaborData = LaborData(year: real, sector1: real, sector2: real, sector3: real)

  /** A projected labour structure, in percent per sector. */
  datatype LaborStructure = LaborStructure(sector1: real, sector2: real, sector3: real)

  /** Land-use indicators of one stage; the last three are optional and
      only shown for planning types other than General. */
  datatype LandUseIndicators = LandUseIndicators(
    residentialUnit: real,
    urbanService: real,
    unitService: real,
    urbanGreen: real,
    unitGreen: real,
    traffic: real,
    maxDensity: Option<real>,
    maxHeight: Option<real>,
    maxLandUseCoef: Option<real>)

  datatype Subdivision = Subdivision(
    id: string,
    name: string,
    area: real,
    currentPop: real,
    approvedProjectPop: real,
    naturalGrowthRate: real,
    mechanicalGrowthRate: real,
    convertedPop: real,
    landUseCurrent: LandUseIndicators,
    landUse10y: LandUseIndicators,
    landUse20y: LandUseIndicators,
    landUse50y: LandUseIndicators)

  /** The forecast snapshot, the aggregate root of the application. */
  datatype ForecastData = ForecastData(
    id: string,
    name: string,
    location: string,
    planningType: PlanningType,
    urbanClass: UrbanClass,
    createdDate: string,
    growthThresholdDn: real,
    totalArea: real,
    currentDensity: real,
    historicalPop: seq<YearData>,
    historicalLabor: seq<LaborData>,
    naturalGrowthRate5y: real,
    mechanicalGrowthRate5y: real,
    visitorsTotal: real,
    averageStayDays: real,
    convertedShortTermPop: real,
    laborProjected10y: LaborStructure,
    laborProjected20y: LaborStructure,
    convertedPopCurrent: real,
    convertedPop10y: real,
    convertedPop20y: real,
    convertedPop50y: real,
    subdivisions: seq<Subdivision>)
}
