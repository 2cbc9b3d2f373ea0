/** The session state of App.tsx: the forecast being edited, the saved
    history, whether a forecast is open, and the screen on show. Timestamps
    and ids, which the source takes from the clock, are parameters. */
module App {
  import opened Types
  import opened Constants
  import PopLaborView
  import GeneralInputView
  import SubdivisionView

  /** The four input and result screens, which need an open forecast. */
  predicate IsStep(view: ViewState)
  {
    view == GeneralInput || view == PopLaborInput || view == SubdivisionInput || view == Results
  }

  /** Every derived field of a snapshot agrees with the fields it is derived from. */
  predicate Converged(data: ForecastData)
  {
    && PopLaborView.HistoryConverged(data)
    && PopLaborView.ConversionConverged(data)
    && data.currentDensity == GeneralInputView.Density(data)
  }

  /** The default forecast, under any id and date, starts converged. */
  lemma DefaultForecastConverged(currentYear: int, id: string, date: string)
    ensures Converged(DefaultForecast(currentYear).(id := id, createdDate := date))
  {
    var d := DefaultForecast(currentYear).(id := id, createdDate := date);
    PopLaborView.AverageOfZeroRates(d.historicalPop, PopLaborView.NaturalRateOf);
    PopLaborView.AverageOfZeroRates(d.historicalPop, PopLaborView.MechanicalRateOf);
  }

  class Session {
    /** The year `new Date().getFullYear()` gave when the constants loaded. */
    const currentYear: int
    var currentView: ViewState
    var forecast: ForecastData
    var isForecastActive: bool
    var history: seq<ForecastData>

    /** No input or result screen is on show without an open forecast. */
    ghost predicate Valid()
      reads this
    {
      IsStep(currentView) ==> isForecastActive
    }

    /** The initial state; `savedHistory` is what storage held on mount. */
    constructor (currentYear: int, savedHistory: seq<ForecastData>)
      ensures Valid()
      ensures this.currentYear == currentYear
      ensures currentView == Home && forecast == DefaultForecast(currentYear)
      ensures !isForecastActive && history == savedHistory
    {
      this.currentYear := currentYear;
      currentView := Home;
      forecast := DefaultForecast(currentYear);
      isForecastActive := false;
      history := savedHistory;
    }

    /** saveSnapshot: append `data`, stamped with `timestamp`, to the history. */
    method SaveSnapshot(data: ForecastData, timestamp: string)
      requires Valid()
      modifies this
      ensures Valid()
      ensures |history| == |old(history)| + 1
      ensures history[..|old(history)|] == old(history)
      ensures history[|old(history)|] == data.(createdDate := timestamp)
      ensures forecast == old(forecast) && currentView == old(currentView)
      ensures isForecastActive == old(isForecastActive)
    {
      history := history + [data.(createdDate := timestamp)];
    }

    /** createForecast: a fresh default forecast, opened on the general form. */
    method CreateForecast(newId: string, timestamp: string)
      requires Valid()
      modifies this
      ensures Valid()
      ensures forecast == DefaultForecast(currentYear).(id := newId, createdDate := timestamp)
      ensures Converged(forecast)
      ensures isForecastActive && currentView == GeneralInput
      ensures history == old(history)
    {
      forecast := DefaultForecast(currentYear).(id := newId, createdDate := timestamp);
      DefaultForecastConverged(currentYear, newId, timestamp);
      isForecastActive := true;
      currentView := GeneralInput;
    }

    /** Whether a sidebar entry is greyed out. */
    function IsDisabled(view: ViewState): (disabled: bool)
      reads this
      ensures disabled <==> IsStep(view) && !isForecastActive
    {
      IsStep(view) && !isForecastActive
    }

    /** A click on a sidebar entry: a disabled entry does nothing. */
    method SidebarClick(view: ViewState)
      requires Valid()
      modifies this
      ensures Valid()
      ensures currentView == if old(IsDisabled(view)) then old(currentView) else view
      ensures forecast == old(forecast) && history == old(history)
      ensures isForecastActive == old(isForecastActive)
    {
      if !IsDisabled(view) {
        currentView := view;
      }
    }

    /** The history screen's onLoad: open a saved snapshot on the general form. */
    method LoadFromHistory(data: ForecastData)
      requires Valid() && currentView == History
      modifies this
      ensures Valid()
      ensures forecast == data && isForecastActive && currentView == GeneralInput
      ensures history == old(history)
    {
      forecast := data;
      isForecastActive := true;
      currentView := GeneralInput;
    }

    /** onChange of the three input screens: replace the forecast. */
    method Edit(data: ForecastData)
      requires Valid()
      requires currentView == GeneralInput || currentView == PopLaborInput || currentView == SubdivisionInput
      modifies this
      ensures Valid()
      ensures isForecastActive
      ensures forecast == data
      ensures currentView == old(currentView) && history == old(history)
      ensures isForecastActive == old(isForecastActive)
    {
      forecast := data;
    }

    /** onClear of the general form: back to the default forecast, keeping
      the id and creation date. */
    method Clear()
      requires Valid() && currentView == GeneralInput
      modifies this
      ensures Valid()
      ensures isForecastActive
      ensures forecast == DefaultForecast(currentYear).(id := old(forecast).id,
                                                        createdDate := old(forecast).createdDate)
      ensures Converged(forecast)
      ensures currentView == old(currentView) && history == old(history)
      ensures isForecastActive == old(isForecastActive)
    {
      forecast := DefaultForecast(currentYear).(id := forecast.id, createdDate := forecast.createdDate);
      DefaultForecastConverged(currentYear, forecast.id, forecast.createdDate);
    }

    /** The general form's effect that stores the computed density. */
    method SyncDensity()
      requires Valid() && currentView == GeneralInput
      modifies this
      ensures Valid()
      ensures isForecastActive
      ensures forecast == GeneralInputView.DensityEffect(old(forecast))
      ensures forecast.currentDensity == GeneralInputView.Density(forecast)
      ensures currentView == old(currentView) && history == old(history)
      ensures isForecastActive == old(isForecastActive)
    {
      var density := GeneralInputView.Density(forecast);
      if density != forecast.currentDensity {
        forecast := forecast.(currentDensity := density);
      }
      GeneralInputView.DensityReadsAreaAndLastRow(old(forecast), forecast);
    }

    /** onNext of the general form: save, then go to the population form. */
    method GeneralNext(timestamp: string)
      requires Valid() && currentView == GeneralInput
      modifies this
      ensures Valid()
      ensures isForecastActive
      ensures history == old(history) + [old(forecast).(createdDate := timestamp)]
      ensures currentView == PopLaborInput
      ensures forecast == old(forecast) && isForecastActive == old(isForecastActive)
    {
      SaveSnapshot(forecast, timestamp);
      currentView := PopLaborInput;
    }

    /** onNext of the population form: save, then go to the subdivision form. */
    method PopLaborNext(timestamp: string)
      requires Valid() && currentView == PopLaborInput
      modifies this
      ensures Valid()
      ensures isForecastActive
      ensures history == old(history) + [old(forecast).(createdDate := timestamp)]
      ensures currentView == SubdivisionInput
      ensures forecast == old(forecast) && isForecastActive == old(isForecastActive)
    {
      SaveSnapshot(forecast, timestamp);
      currentView := SubdivisionInput;
    }

    /** The subdivision form's run button: runCalculations hands on the
      snapshot unchanged, then onRunForecast saves it and shows the results. */
    method SubdivisionRunForecast(timestamp: string)
      requires Valid() && currentView == SubdivisionInput
      modifies this
      ensures Valid()
      ensures isForecastActive
      ensures history == old(history) + [old(forecast).(createdDate := timestamp)]
      ensures currentView == Results
      ensures forecast == old(forecast) && isForecastActive == old(isForecastActive)
    {
      var saved := forecast;
      Edit(SubdivisionView.RunCalculations(forecast));
      SaveSnapshot(saved, timestamp);
      currentView := Results;
    }

    /** onNext of the subdivision form: save, then show the results. */
    method SubdivisionNext(timestamp: string)
      requires Valid() && currentView == SubdivisionInput
      modifies this
      ensures Valid()
      ensures isForecastActive
      ensures history == old(history) + [old(forecast).(createdDate := timestamp)]
      ensures currentView == Results
      ensures forecast == old(forecast) && isForecastActive == old(isForecastActive)
    {
      SaveSnapshot(forecast, timestamp);
      currentView := Results;
    }
  }
}
