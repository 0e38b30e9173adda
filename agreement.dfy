/**
 * Agreements between the backend, the preprocessing script and the
 * frontend, which each hard-code the same labels and hours independently.
 */
module Agreement {
  import opened Wrappers
  import Api
  import Backend
  import Preprocessing
  import Results
  import Ascii
  import Page

  /** The preprocessing column and the backend's predicate select the same hours. */
  lemma RushHourRulesAgree(hour: int)
    ensures Preprocessing.IsRushHourFlag(hour) == (if Backend.IsRushHour(hour) then 1 else 0)
  {
  }

  /**
   * Every level name the backend sends is one of the frontend counter's
   * exact-case keys, and gets a style class of its own.
   */
  lemma BackendLevelsAreDisplayed(level: Backend.Level)
    ensures Results.IsCountedKey(Backend.LevelName(level))
    ensures Results.TrafficClass(Backend.LevelName(level)) != ""
  {
    match level
    case Low => assert Ascii.ToLower("Low") == "low";
    case Moderate => assert Ascii.ToLower("Moderate") == "moderate";
    case High => assert Ascii.ToLower("High") == "high";
  }

  /** The labels `map_severity` writes are the ones the backend uses. */
  lemma SeverityLabelsAreLevelNames(severity: Option<int>)
    ensures exists level :: Backend.LevelName(level) == Preprocessing.MapSeverity(severity)
  {
    var name := Preprocessing.MapSeverity(severity);
    if name == "Low" {
      assert Backend.LevelName(Backend.Low) == name;
    } else if name == "Moderate" {
      assert Backend.LevelName(Backend.Moderate) == name;
    } else {
      assert Backend.LevelName(Backend.High) == name;
    }
  }

  /** A history spelled only with backend level names is counted in full. */
  lemma LevelNamesFullyCounted(history: seq<Api.HistoryEntry>)
    requires forall i :: 0 <= i < |history| ==> history[i].trafficCondition in Backend.LevelNames
    ensures Results.Total(Results.Tally(history)) == |history|
  {
    Results.TallyBound(history);
  }

  /**
   * Every entry of a backend history is counted by the frontend, so the three
   * bars of its chart add up to the number of draws: 20 for a response.
   */
  lemma BackendHistoryFullyCounted(level: Backend.Level, draws: seq<real>)
    ensures Results.Total(Results.Tally(Backend.HistoryFor(level, draws))) == |draws|
  {
    LevelNamesFullyCounted(Backend.HistoryFor(level, draws));
  }

  /** The history of any successful response makes the chart's bars add up to 20. */
  lemma ResponseChartSumsTo20(level: Backend.Level, draws: seq<real>)
    requires |draws| == Backend.HistoryLength
    ensures var chart := Results.ChartData(Results.Tally(Backend.HistoryFor(level, draws)));
      chart[0].value + chart[1].value + chart[2].value == 20
  {
    BackendHistoryFullyCounted(level, draws);
  }

  /**
   * What the page shows for an unknown weather: the corrected handler's
   * detail verbatim; the handler as written shows it with the "400: " prefix
   * of the masked exception.
   */
  lemma InvalidWeatherNotice()
    ensures Page.FailureMessage(Page.ErrorResponse(Some(Backend.IntendedExcept(Backend.InvalidWeather).detail)))
      == "Invalid weather condition"
    ensures Page.FailureMessage(Page.ErrorResponse(Some(Backend.BlanketExcept(Backend.InvalidWeather).detail)))
      == "400: Invalid weather condition"
  {
  }
}
