# Urban forecast engine — a Dafny model

This project models the forecasting core of an urban-planning assistant. The assistant projects population over 10, 20 and 50 years from five years of history and a count of short-term visitors. It also keeps a list of planning subdivisions with their land-use indicators, and it saves snapshots of a forecast to a version history.

The model has one module per source file:

- `Types` (types.ts): the records `YearData`, `LaborData`, `LaborStructure` and `LandUseIndicators`. The three optional architecture indicators of `LandUseIndicators` are `Option<real>`. Also `Subdivision`, `ForecastData`, and the enumerations of screens, planning types and urban classes.
- `JsMath`: the JavaScript built-ins the rules use, over the reals:
  - `Math.round`, as `Floor(x + 1/2)`;
  - `parseFloat(x.toFixed(2))`;
  - `Math.pow` with a natural exponent;
  - `${n}` for a natural number.
- `Utils` (utils.ts): the urbanisation rate and compound growth.
- `Sums`: the left fold used by every `reduce(..., 0)` and by the averaging loop.
- `Constants` (constants.ts): the initial rows, the empty land use and the default forecast. The year that `new Date().getFullYear()` gives is a parameter.
- `PopLaborView` (views/PopLaborInput.tsx): the row editor, the visitor conversion and the base forecast. `HandlePopChange` is the source's loop, written as a `while` loop. It is proved equal to the specification function `PopEdited`.
- `SubdivisionView` (views/SubdivisionInput.tsx): add, remove, field updates, land-use updates, and which indicators apply.
- `ResultsView` (views/Results.tsx): the subdivision totals, the chart data and the export rows.
- `GeneralInputView` (views/GeneralInput.tsx): single-field edits, the derived density and the effect that stores it.
- `HomeView` (views/Home.tsx): counts per planning type, pinned locations and pin offsets.
- `App` (App.tsx): the class `Session`. Its fields are `currentView`, `forecast`, `isForecastActive` and `history`.
  - Its invariant `Valid()` says that no input or result screen is shown while no forecast is open.
  - The handlers are methods.
  - Ids and timestamps are parameters.

In four places the code does something other than the plain rule one would expect, and the model follows the code:

- `toFixed(2)` rounds the magnitude and then restores the sign. So a tie in a negative average goes away from zero, rather than rounding half up towards +infinity.
- The "five-year" averages divide by the number of rows, not by a fixed 5. The two agree while the table has its five rows.
- The stored density is refreshed only by the general form's effect, while that form is on screen. An edit of the last population total in the population form leaves `currentDensity` stale until the general form is shown again. `App.Converged` is therefore a property of the default forecast, not an invariant of every handler.
- `runCalculations` does not compute any per-subdivision forecast, although the button that calls it is labelled as running the forecast. It hands back the same snapshot before the save. The totals are computed only by the results view.

## Model

| member | source | states |
|---|---|---|
| `JsMath.Round` | views/PopLaborInput.tsx:66 | `Math.round` gives an integer within half a unit of x, ties going up |
| `JsMath.RoundMonotone` | views/PopLaborInput.tsx:84-87 | rounding never reverses the order of two values |
| `JsMath.RoundHalfUp2` | views/PopLaborInput.tsx:36-37 | toFixed's rounding of a magnitude: a whole number of hundredths in (x - 1/200, x + 1/200] |
| `JsMath.ToFixed2` | views/PopLaborInput.tsx:36-37 | `parseFloat(x.toFixed(2))` is a whole number of hundredths, which lies in (x - 1/200, x + 1/200] for x ≥ 0 and in [x - 1/200, x + 1/200) for x < 0, so it is the nearest one, with ties going away from zero |
| `JsMath.ToFixed2OfHundredths` | views/PopLaborInput.tsx:36-37 | a value with at most two decimals comes back unchanged |
| `JsMath.ToFixed2Idempotent` | views/PopLaborInput.tsx:36-37 | rounding a stored average again changes nothing |
| `JsMath.ToFixed2Odd` | views/PopLaborInput.tsx:36-37 | the two-decimal rounding is symmetric about zero |
| `JsMath.NatToString` | views/SubdivisionInput.tsx:22 | the rendered subdivision number is a non-empty string of decimal digits with no leading zero |
| `JsMath.NatToStringValue` | views/SubdivisionInput.tsx:22 | the rendered digits, read as a decimal numeral, stand for the number itself |
| `JsMath.Pow` | utils.ts:14 | `Math.pow(b, n)`: 1 for n = 0 or b = 1, non-negative for b ≥ 0, and at least 1 for b ≥ 1 |
| `JsMath.PowSucc` | utils.ts:14 | one more step of `Math.pow` multiplies by the base |
| `JsMath.PowAdd` | utils.ts:14 | b^(m+n) = b^m · b^n |
| `JsMath.PowGrowsWithExponent` | utils.ts:14 | for b ≥ 1 a larger exponent never gives a smaller power |
| `Utils.UrbanRate` | utils.ts:7-10 | a zero total gives 0; otherwise rate × total = urban × 100 |
| `Utils.UrbanRateRecoversUrban` | utils.ts:9 | with a non-zero total, rate/100 × total gives back the urban population |
| `Utils.UrbanRateBounds` | utils.ts:7-10 | 0 ≤ urban ≤ total with total > 0 gives a rate in [0, 100] |
| `Utils.CompoundGrowth` | utils.ts:12-15 | zero years gives the start value; with `GrowthOneYear` and `GrowthNextYear`, each year multiplies by 1 + rate/100 |
| `Utils.GrowthAtZeroRate` | utils.ts:14 | a zero rate gives the start value for any number of years |
| `Utils.GrowthComposes` | utils.ts:12-15 | growing m years and then n years equals growing m + n years |
| `Utils.GrowthOneYear` | utils.ts:14 | one year at rate r turns v into v + v·r/100 |
| `Utils.GrowthNextYear` | utils.ts:12-15 | each further year multiplies the projection by 1 + r/100 |
| `Utils.GrowthNonDecreasing` | utils.ts:14 | a non-negative start and rate give at least the start, and more with more years |
| `Sums.Sum` | views/Results.tsx:26-27 | `reduce((sum, x) => sum + f(x), 0)` over no elements is 0 |
| `Sums.SumSnoc` | views/Results.tsx:26-27 | one more element adds its term |
| `Sums.SumSingleton` | views/Results.tsx:26-27 | one element sums to its own term |
| `Sums.SumConcat` | views/Results.tsx:26-27 | the sum of two lists put together is the sum of their sums |
| `Sums.SumPermutation` | views/Results.tsx:26-27 | lists with the same elements, in any order, have the same sum |
| `Sums.SumOfZeros` | views/PopLaborInput.tsx:29-37 | terms that are all 0 sum to 0 |
| `Sums.SumNonNegative` | views/Results.tsx:26-27 | non-negative terms have a non-negative sum |
| `Constants.InitialYearData` | constants.ts:3-10 | five rows for years Y-5 … Y-1, every population and rate 0 |
| `Constants.InitialLaborData` | constants.ts:12-17 | five labour rows for the same years, every sector 0 |
| `Constants.InitialYearsConsecutive` | constants.ts:4 | the years start at Y-5, end at Y-1, rise by one, and agree between the two tables |
| `Constants.DefaultForecast` | constants.ts:31-58 | general plan, class V, empty strings, no subdivisions, threshold 1, area and density 0, both 5-year rates 0, stay of 1 day, no visitors, all converted populations 0, zero labour projections, the initial tables |
| `PopLaborView.EditRow` | views/PopLaborInput.tsx:19-26 | the edited column takes the value; a population edit recomputes the urbanisation rate from the updated row |
| `PopLaborView.HandlePopChange` | views/PopLaborInput.tsx:17-45 | the copy, the row update and the summing loop yield exactly `PopEdited`: the edited rows with the rounded means of both rate columns |
| `PopLaborView.PopEditChangesOneRow` | views/PopLaborInput.tsx:18-19 | only row i changes; the snapshot changes only in the rows and the two averages |
| `PopLaborView.EditRowKeepsRateConsistent` | views/PopLaborInput.tsx:22-26 | after a population edit the row's rate matches its populations; every edit but the rate column keeps a matching row matching |
| `PopLaborView.AverageRate` | views/PopLaborInput.tsx:28-37 | 0 without rows; otherwise a whole number of hundredths, in (m - 1/200, m + 1/200] for a mean m ≥ 0 and in [m - 1/200, m + 1/200) for m < 0, so the nearest one to the column's mean, ties away from zero |
| `PopLaborView.AverageOfNoRows` | views/PopLaborInput.tsx:36-37 | no rows average to 0 |
| `PopLaborView.AverageIgnoresOrder` | views/PopLaborInput.tsx:29-37 | reordering the rows changes neither average |
| `PopLaborView.AverageOfZeroRates` | views/PopLaborInput.tsx:29-37 | rows whose rates are all 0 average to 0 |
| `PopLaborView.PopEditKeepsHistoryConverged` | views/PopLaborInput.tsx:17-45 | any edit other than the rate column keeps each row's rate and both averages in step with the rows |
| `PopLaborView.EditLaborRow` | views/PopLaborInput.tsx:49 | the edited labour column takes the value; the other three columns keep theirs |
| `PopLaborView.LaborEdited` | views/PopLaborInput.tsx:47-51 | only labour row i changes; nothing else in the snapshot changes |
| `PopLaborView.LaborEditReadsBack` | views/PopLaborInput.tsx:49 | the edited labour column reads the new value; the other columns keep theirs |
| `PopLaborView.ShortTermConversion` | views/PopLaborInput.tsx:55-58 | N0 is 0 when Nt or m is 0, and 2·Nt·m/365 in every case |
| `PopLaborView.ShortTermConversionMonotone` | views/PopLaborInput.tsx:55-58 | N0 and its rounding never decrease when Nt or m grows (non-negative inputs) |
| `PopLaborView.VisitorEdited` | views/PopLaborInput.tsx:60-67 | the edited input is stored, the other kept, N0 = round(conversion of the stored inputs); nothing else changes |
| `PopLaborView.VisitorEditIdempotent` | views/PopLaborInput.tsx:60-67 | repeating the same visitor edit changes nothing, and its result is converged |
| `PopLaborView.RunBaseForecast` | views/PopLaborInput.tsx:70-89 | fails exactly when there are no rows; otherwise current = round(last total + N0), and each horizon = round(growth of that base at nat5y + mech5y); only these four fields change |
| `PopLaborView.RunBaseForecastIdempotent` | views/PopLaborInput.tsx:70-89 | running the forecast on its own result gives the same snapshot |
| `PopLaborView.HorizonsShareOneBase` | views/PopLaborInput.tsx:78-80 | the 20- and 50-year figures are the unrounded 10-year growth continued, so rounding is not chained |
| `PopLaborView.HorizonsOrdered` | views/PopLaborInput.tsx:76-88 | a non-negative base and rate give current ≤ 10y ≤ 20y ≤ 50y |
| `PopLaborView.ZeroRateKeepsBase` | views/PopLaborInput.tsx:76-88 | a combined rate of 0 makes all three horizons equal the rounded base |
| `PopLaborView.RunBaseForecastKeepsConverged` | views/PopLaborInput.tsx:82-88 | the forecast keeps the row rates, the averages and N0 in step |
| `SubdivisionView.NewSubdivision` | views/SubdivisionInput.tsx:20-33 | the new subdivision has the given id, the name "Phân khu n+1", zero figures, the global rates, and empty land use at all four stages |
| `SubdivisionView.AddSubdivision` | views/SubdivisionInput.tsx:34 | the list grows by one; the earlier elements are unchanged and the new one is last |
| `SubdivisionView.WithoutId` | views/SubdivisionInput.tsx:40 | the result is no longer than the list and no kept element has the id |
| `SubdivisionView.WithoutIdMembers` | views/SubdivisionInput.tsx:40 | an element is kept exactly when it is in the list and its id differs |
| `SubdivisionView.WithoutIdConcat` | views/SubdivisionInput.tsx:40 | filtering works piece by piece, so kept elements stay in order |
| `SubdivisionView.WithoutFreshId` | views/SubdivisionInput.tsx:40 | removing an id nobody carries changes nothing |
| `SubdivisionView.RemoveSubdivision` | views/SubdivisionInput.tsx:38-42 | only the list changes, to the elements whose id differs |
| `SubdivisionView.AddThenRemove` | views/SubdivisionInput.tsx:34-40 | adding under a fresh id and then removing that id gives back the snapshot |
| `SubdivisionView.RemoveIdempotent` | views/SubdivisionInput.tsx:40 | removing twice is removing once |
| `SubdivisionView.ApplyEdit` | views/SubdivisionInput.tsx:45 | the edited field takes the value; id, converted population and every land-use stage are kept |
| `SubdivisionView.UpdateSubdivision` | views/SubdivisionInput.tsx:44-47 | same length and order; exactly the elements with the id are edited |
| `SubdivisionView.UpdateKeepsIds` | views/SubdivisionInput.tsx:45 | the ids stay in place, and an id nobody carries leaves the snapshot unchanged |
| `SubdivisionView.Indicator` | types.ts:49-60 | the six core indicators are always present |
| `SubdivisionView.SetIndicator` | views/SubdivisionInput.tsx:54 | `{ ...lu, [field]: value }`: the written indicator is present with the value; every other indicator is as before |
| `SubdivisionView.SetIndicatorReadsBack` | views/SubdivisionInput.tsx:54 | the written indicator reads the new value; every other indicator keeps its own |
| `SubdivisionView.EmptyLandUseAllZero` | constants.ts:19-29 | all nine indicators of the constant `Constants.EmptyLandUse` are present and 0 |
| `SubdivisionView.SetStage` | views/SubdivisionInput.tsx:52-55 | only the chosen stage of current/10y/20y changes; the 50-year stage never does |
| `SubdivisionView.UpdateLandUse` | views/SubdivisionInput.tsx:49-60 | same length and order; exactly the subdivisions with the id get the stage update |
| `SubdivisionView.UpdateLandUseReadsBack` | views/SubdivisionInput.tsx:49-58 | in a matching subdivision only the chosen indicator of the chosen stage reads the new value; the 50-year stage is unchanged |
| `SubdivisionView.RunCalculations` | views/SubdivisionInput.tsx:62-79 | the snapshot is handed on unchanged |
| `SubdivisionView.ExtraIndicatorsNeeded` | views/SubdivisionInput.tsx:81 | the extra indicators apply exactly when the planning type is not General |
| `SubdivisionView.VisibleIndicators` | views/SubdivisionInput.tsx:148-175 | the table has 9 indicator rows when the extra indicators apply, 6 otherwise |
| `SubdivisionView.VisibleIndicatorsExactly` | views/SubdivisionInput.tsx:148-175 | an indicator is shown exactly when it is a core one or the extra indicators apply |
| `ResultsView.TotalSubArea` | views/Results.tsx:26 | no subdivisions total 0; non-negative areas give a non-negative total |
| `ResultsView.TotalSubPopCurrent` | views/Results.tsx:27 | no subdivisions total 0; non-negative populations give a non-negative total |
| `ResultsView.TotalApprovedPop` | views/Results.tsx:171 | no subdivisions total 0; non-negative approved populations give a non-negative total |
| `ResultsView.TotalsOfEmptyAndSingleton` | views/Results.tsx:26-27 | the empty list totals 0 in area, current and approved population; a singleton totals its own figures |
| `ResultsView.TotalsAdd` | views/Results.tsx:26-27 | appending adds the element's figures, and totals add over concatenation |
| `ResultsView.TotalsIgnoreOrder` | views/Results.tsx:26-27 | the three totals do not depend on the list order |
| `ResultsView.AddSubdivisionKeepsTotals` | views/Results.tsx:26-27 | a newly added subdivision leaves all three totals unchanged |
| `ResultsView.EditKeepsOtherTotals` | views/Results.tsx:171 | an edit leaves every total whose field it does not write unchanged |
| `ResultsView.PopChartData` | views/Results.tsx:30-35 | four bars: the converted current value if non-zero, else the subdivision total; then the 10-, 20- and 50-year figures |
| `ResultsView.ChartShowsForecast` | views/Results.tsx:30-35 | after the base forecast the bars are the rounded base (or the subdivision total when that rounds to 0) and the rounded 10-, 20- and 50-year growths of that base |
| `ResultsView.LaborChartData` | views/Results.tsx:37-42 | one point per labour row, same order, year and sectors copied |
| `ResultsView.ExportRows` | views/Results.tsx:44-61 | 14 header rows, then one row per subdivision with its name, area and current population |
| `GeneralInputView.HandleChange` | views/GeneralInput.tsx:17-19 | the edited field takes the value; every other field is kept |
| `GeneralInputView.CurrentTotalPop` | views/GeneralInput.tsx:22 | the last row's total, or 0 without rows |
| `GeneralInputView.Density` | views/GeneralInput.tsx:23 | 0 unless the area is positive; otherwise density × area = current total |
| `GeneralInputView.DensityNonNegative` | views/GeneralInput.tsx:23 | a non-negative population gives a non-negative density |
| `GeneralInputView.DensityReadsAreaAndLastRow` | views/GeneralInput.tsx:22-23 | the density depends only on the area and the last row's total |
| `GeneralInputView.DensityEffect` | views/GeneralInput.tsx:26-30 | stores the computed density and changes nothing else; no write when the value already matches |
| `GeneralInputView.DensityEffectIdempotent` | views/GeneralInput.tsx:26-30 | running the effect twice is running it once |
| `HomeView.TotalForecasts` | views/Home.tsx:14 | the number of forecasts is the sum of the counts of the four planning types |
| `HomeView.GeneralPlans` | views/Home.tsx:15 | at most the number of forecasts, and 0 exactly when no forecast is a general plan |
| `HomeView.ZoningPlans` | views/Home.tsx:16 | at most the number of forecasts, and 0 exactly when no forecast is a zoning plan |
| `HomeView.CountPlansZero` | views/Home.tsx:15-16 | a type's count is 0 exactly when no forecast has that type |
| `HomeView.CountPlans` | views/Home.tsx:15-16 | a count never exceeds the number of forecasts |
| `HomeView.CountsPartitionHistory` | views/Home.tsx:14-16 | the counts of the four planning types add up to the length of the history |
| `HomeView.GeneralAndZoningBounded` | views/Home.tsx:14-16 | generalPlans + zoningPlans ≤ totalForecasts |
| `HomeView.CountAfterSave` | views/Home.tsx:15-16 | one saved snapshot adds one to the count of its own type only |
| `HomeView.Locations` | views/Home.tsx:19 | no more pins than forecasts, none empty |
| `HomeView.LocationsExactly` | views/Home.tsx:19 | a location is pinned exactly when it is non-empty and some forecast has it |
| `HomeView.LocationsConcat` | views/Home.tsx:19 | the pins keep history order |
| `HomeView.PinTop` | views/Home.tsx:78 | the top offset lies in [20, 80) for every index |
| `HomeView.PinLeft` | views/Home.tsx:78 | the left offset lies in [20, 80) for every index |
| `HomeView.PinsRepeat` | views/Home.tsx:78 | top offsets repeat every 4 pins, left offsets every 12 |
| `App.DefaultForecastConverged` | App.tsx:53-63 | the default forecast under any id and date has every derived field in step |
| `App.Session.constructor` | App.tsx:21-24 | starts on Home with the default forecast, no open forecast, and the stored history |
| `App.Session.SaveSnapshot` | App.tsx:47-51 | history grows by one at the end, unchanged before; the new entry is the data with the timestamp as creation date |
| `App.Session.CreateForecast` | App.tsx:53-63 | the default forecast with the new id and date, converged, open, on the general form |
| `App.Session.IsDisabled` | App.tsx:101-104 | the four step entries are disabled exactly when no forecast is open |
| `App.Session.SidebarClick` | App.tsx:66-73 | a disabled entry leaves the screen as it is; an enabled one shows its screen |
| `App.Session.LoadFromHistory` | App.tsx:159-163 | the loaded record becomes the forecast, open, on the general form |
| `App.Session.Edit` | App.tsx:170 | an input screen's onChange replaces the forecast and nothing else |
| `App.Session.Clear` | App.tsx:175 | back to the default forecast, keeping the id and creation date |
| `App.Session.SyncDensity` | views/GeneralInput.tsx:26-30 | the forecast becomes `DensityEffect` of the old one, so the stored density matches |
| `App.Session.GeneralNext` | App.tsx:171-174 | saves one snapshot of the forecast and moves to the population form |
| `App.Session.PopLaborNext` | App.tsx:183-186 | saves one snapshot and moves to the subdivision form |
| `App.Session.SubdivisionRunForecast` | App.tsx:194-198 | saves one snapshot of the unchanged forecast and moves to the results |
| `App.Session.SubdivisionNext` | App.tsx:199-202 | saves one snapshot and moves to the results |

## Left out

- NaN and `undefined`: reals cannot be NaN. So each `|| 0` fallback is the identity here, and the `!total`, `!Nt` and `!m` guards are equality with 0. A `parseFloat` of an empty field has no counterpart.
- IEEE-754 effects: binary rounding in `toFixed`, `Math.pow` and sums. The model computes exactly over the reals.
- `formatNumber` (locale formatting), the CSV text and URI encoding of `exportToCSV`, and `toString` of the export cells. Export cells are kept as numbers.
- The clock and randomness: `Date.now`, `new Date().toISOString()`, `new Date().getFullYear()` and `generateId`. Their values are parameters.
- Storage and the page: `localStorage` reads and writes, the dark-mode class, `window.print`, and `window.confirm`. Removal is modelled as confirmed, and the stored history arrives as the constructor's argument.
- Rendering, charts, the mobile-menu toggle, and the `expandedId` accordion state. The mobile menu hides the step entries under the same guard that `IsDisabled` states.
- The settings and history screens. The history screen only chooses the record that `LoadFromHistory` receives.
- Inline edits of the projected labour structure (views/PopLaborInput.tsx:208-218). They are plain `Session.Edit` calls with one sector replaced.
- `SubdivisionView.UpdateSubdivision`: covers the six fields the form edits. `id`, `convertedPop` and the land-use stages, which `keyof Subdivision` also allows, are never passed by the form.
- `GeneralInputView.HandleChange`: covers the seven fields the general form writes. Other `keyof ForecastData` fields are never passed to it.
- `PopLaborView.HandlePopChange`: requires a row index inside the table, which is the only kind the table passes.
