/** The general-data form of views/GeneralInput.tsx: single-field edits
    and the derived current density. */
module GeneralInputView {
  import opened Types

  /** The fields the form writes, each with its new value. */
  datatype GeneralEdit =
    | SetName(name: string)
    | SetLocation(location: string)
    | SetPlanningType(planningType: PlanningType)
    | SetUrbanClass(urbanClass: UrbanClass)
    | SetTotalArea(totalArea: real)
    | SetGrowthThresholdDn(growthThresholdDn: real)
    | SetCurrentDensity(currentDensity: real)

  /** handleChange: `{ ...data, [field]: value }`. */
  function HandleChange(data: ForecastData, edit: GeneralEdit): (r: ForecastData)
    ensures r.name == (if edit.SetName? then edit.name else data.name)
    ensures r.location == (if edit.SetLocation? then edit.location else data.location)
    ensures r.planningType == (if edit.SetPlanningType? then edit.planningType else data.planningType)
    ensures r.urbanClass == (if edit.SetUrbanClass? then edit.urbanClass else data.urbanClass)
    ensures r.totalArea == (if edit.SetTotalArea? then edit.totalArea else data.totalArea)
    ensures r.growthThresholdDn ==
      (if edit.SetGrowthThresholdDn? then edit.growthThresholdDn else data.growthThresholdDn)
    ensures r.currentDensity ==
      (if edit.SetCurrentDensity? then edit.currentDensity else data.currentDensity)
    ensures r == data.(name := r.name, location := r.location, planningType := r.planningType,
                       urbanClass := r.urbanClass, totalArea := r.totalArea,
                       growthThresholdDn := r.growthThresholdDn, currentDensity := r.currentDensity)
  {
    match edit
    case SetName(v) => data.(name := v)
    case SetLocation(v) => data.(location := v)
    case SetPlanningType(v) => data.(planningType := v)
    case SetUrbanClass(v) => data.(urbanClass := v)
    case SetTotalArea(v) => data.(totalArea := v)
    case SetGrowthThresholdDn(v) => data.(growthThresholdDn := v)
    case SetCurrentDensity(v) => data.(currentDensity := v)
  }

  /** currentTotalPop: the total of the last history row, 0 without rows. */
  function CurrentTotalPop(data: ForecastData): (pop: real)
    ensures |data.historicalPop| == 0 ==> pop == 0.0
    ensures |data.historicalPop| > 0 ==> pop == data.historicalPop[|data.historicalPop| - 1].totalPop
  {
    if |data.historicalPop| == 0 then 0.0
    else data.historicalPop[|data.historicalPop| - 1].totalPop
  }

  /** density: people per hectare, 0 unless the area is positive. */
  function Density(data: ForecastData): (d: real)
    ensures data.totalArea <= 0.0 ==> d == 0.0
    ensures data.totalArea > 0.0 ==> d * data.totalArea == CurrentTotalPop(data)
  {
    if data.totalArea > 0.0 then CurrentTotalPop(data) / data.totalArea else 0.0
  }

  /** A non-negative population never gives a negative density. */
  lemma DensityNonNegative(data: ForecastData)
    requires CurrentTotalPop(data) >= 0.0
    ensures Density(data) >= 0.0
  {
  }

  /** The density reads only the area and the last history row. */
  lemma DensityReadsAreaAndLastRow(data: ForecastData, data': ForecastData)
    requires data.totalArea == data'.totalArea
    requires CurrentTotalPop(data) == CurrentTotalPop(data')
    ensures Density(data) == Density(data')
  {
  }

  /** The form's effect: write `currentDensity` only when it differs from
      the computed density. */
  function DensityEffect(data: ForecastData): (r: ForecastData)
    ensures r.currentDensity == Density(data)
    ensures r == data.(currentDensity := r.currentDensity)
    ensures data.currentDensity == Density(data) ==> r == data
  {
    var density := Density(data);
    if density != data.currentDensity then HandleChange(data, SetCurrentDensity(density)) else data
  }

  /** Running the effect a second time changes nothing. */
  lemma DensityEffectIdempotent(data: ForecastData)
    ensures DensityEffect(DensityEffect(data)) == DensityEffect(data)
  {
    DensityReadsAreaAndLastRow(data, DensityEffect(data));
  }
}
