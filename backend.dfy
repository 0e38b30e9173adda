/**
 * The `/predict` handler of main.py: validate the weather condition, read the
 * hour, combine three factors into a traffic level, pick the safety rule for
 * that level and draw a 20-entry simulated history.
 */
module Backend {
  import opened Wrappers
  import opened Api

  /** `datetime.hour`. */
  type Hour = h: int | 0 <= h <= 23

  /** The request body as the endpoint's pydantic model types it. */
  datatype PredictionRequest = PredictionRequest(
    dateTime: string,
    junction: int,
    weatherCondition: string,
    speedLimit: int)

  /** The `HTTPException` the handler raises: a status code and its `detail`. */
  datatype HttpError = HttpError(status: int, detail: string)

  /** The three traffic levels, in increasing order. */
  datatype Level = Low | Moderate | High

  /** The string the backend sends for a level. */
  function LevelName(level: Level): string
  {
    match level
    case Low => "Low"
    case Moderate => "Moderate"
    case High => "High"
  }

  /** Position of a level in the order Low < Moderate < High. */
  function Rank(level: Level): nat
  {
    match level
    case Low => 0
    case Moderate => 1
    case High => 2
  }

  /** The hours 7 to 9 and 16 to 18 are rush hours. */
  predicate IsRushHour(hour: int)
  {
    (hour >= 7 && hour <= 9) || (hour >= 16 && hour <= 18)
  }

  const RushHours: set<int> := {7, 8, 9, 16, 17, 18}

  /** The rush-hour predicate, restated as the list of the six hours it selects. */
  lemma RushHourIsListedHours(hour: Hour)
    ensures IsRushHour(hour) <==> hour in RushHours
  {
  }

  /** Only the exact strings "Rain", "Snow" and "Fog" are bad weather. */
  predicate IsBadWeather(weather: string)
  {
    weather in ["Rain", "Snow", "Fog"]
  }

  /** A junction counts only when the field is exactly 1. */
  predicate IsJunction(junction: int)
  {
    junction == 1
  }

  /**
   * The factors match exactly: "rain" or "RAIN" is not bad weather, and a
   * junction field other than 1 (0, 2 or -1) is no junction.
   */
  lemma FactorsMatchExactly(weather: string, junction: int)
    ensures IsBadWeather(weather) <==> weather == "Rain" || weather == "Snow" || weather == "Fog"
    ensures !IsBadWeather("rain") && !IsBadWeather("RAIN") && !IsBadWeather("Clear") && !IsBadWeather("Cloudy")
    ensures IsJunction(junction) <==> junction == 1
    ensures !IsJunction(0) && !IsJunction(2) && !IsJunction(-1)
  {
  }

  /** How many of the three factors hold. */
  function FactorCount(rush: bool, badWeather: bool, junction: bool): nat
  {
    (if rush then 1 else 0) + (if badWeather then 1 else 0) + (if junction then 1 else 0)
  }

  /**
   * The decision rule of the handler. Its guard for High lists three
   * pairings of factors; that guard means "at least two factors hold".
   */
  function Classify(rush: bool, badWeather: bool, junction: bool): (level: Level)
    ensures level == High <==> FactorCount(rush, badWeather, junction) >= 2
    ensures level == Moderate <==> FactorCount(rush, badWeather, junction) == 1
    ensures level == Low <==> FactorCount(rush, badWeather, junction) == 0
  {
    if (rush && (badWeather || junction)) || (badWeather && junction) then High
    else if rush || badWeather || junction then Moderate
    else Low
  }

  /** Turning any one factor on never lowers the level. */
  lemma ClassifyMonotone(rush: bool, badWeather: bool, junction: bool)
    ensures Rank(Classify(rush, badWeather, junction)) <= Rank(Classify(true, badWeather, junction))
    ensures Rank(Classify(rush, badWeather, junction)) <= Rank(Classify(rush, true, junction))
    ensures Rank(Classify(rush, badWeather, junction)) <= Rank(Classify(rush, badWeather, true))
  {
  }

  /** The level computed from a request and its hour. */
  function PredictedLevel(data: PredictionRequest, hour: Hour): (level: Level)
    ensures level == High <==>
      FactorCount(IsRushHour(hour), data.weatherCondition in ["Rain", "Snow", "Fog"], data.junction == 1) >= 2
    ensures level == Moderate <==>
      FactorCount(IsRushHour(hour), data.weatherCondition in ["Rain", "Snow", "Fog"], data.junction == 1) == 1
    ensures level == Low <==>
      !IsRushHour(hour) && data.weatherCondition !in ["Rain", "Snow", "Fog"] && data.junction != 1
  {
    Classify(IsRushHour(hour), IsBadWeather(data.weatherCondition), IsJunction(data.junction))
  }

  const HighRule := "Maintain extra distance between vehicles. Consider alternative routes. Stay alert for sudden stops."
  const ModerateRule := "Stay within speed limits. Be cautious at intersections. Allow for slightly longer travel times."
  const LowRule := "Follow normal driving procedures. Maintain safe speed and distance. Stay alert for changing conditions."

  /** The safety rule shown for each level. */
  function Rule(level: Level): string
  {
    match level
    case High => HighRule
    case Moderate => ModerateRule
    case Low => LowRule
  }

  /** Different levels get different rules, so the rule identifies the level. */
  lemma RuleDeterminesLevel(a: Level, b: Level)
    ensures Rule(a) == Rule(b) <==> a == b
  {
    assert HighRule != ModerateRule && ModerateRule != LowRule && LowRule != HighRule;
  }

  /**
   * The three entries of `weights[traffic]`: the chance of drawing Low,
   * Moderate and High for the current level.
   */
  function Weights(level: Level): (real, real, real)
  {
    match level
    case High => (0.2, 0.3, 0.5)
    case Moderate => (0.3, 0.5, 0.2)
    case Low => (0.5, 0.3, 0.2)
  }

  /** The weights of every level form a probability distribution. */
  lemma WeightsAreDistribution(level: Level)
    ensures Weights(level).0 >= 0.0 && Weights(level).1 >= 0.0 && Weights(level).2 >= 0.0
    ensures Weights(level).0 + Weights(level).1 + Weights(level).2 == 1.0
  {
  }

  /** The level one random draw in [0, 1) selects. */
  function Bucket(level: Level, draw: real): Level
  {
    var w := Weights(level);
    if draw < w.0 then Low
    else if draw < w.0 + w.1 then Moderate
    else High
  }

  /**
   * Each level owns one interval of [0, 1) whose length is its weight, so a
   * uniform draw selects it with exactly that chance.
   */
  lemma BucketIntervals(level: Level, draw: real)
    requires 0.0 <= draw < 1.0
    ensures Bucket(level, draw) == Low <==> 0.0 <= draw < Weights(level).0
    ensures Bucket(level, draw) == Moderate <==>
      Weights(level).0 <= draw < Weights(level).0 + Weights(level).1
    ensures Bucket(level, draw) == High <==>
      Weights(level).0 + Weights(level).1 <= draw < Weights(level).0 + Weights(level).1 + Weights(level).2
  {
    WeightsAreDistribution(level);
  }

  /** A larger draw never selects a lower level. */
  lemma BucketMonotone(level: Level, a: real, b: real)
    requires a <= b
    ensures Rank(Bucket(level, a)) <= Rank(Bucket(level, b))
  {
  }

  /** The three strings a history entry can hold. */
  const LevelNames: set<string> := {"Low", "Moderate", "High"}

  /** The history the loop appends, one entry per draw, in draw order. */
  function HistoryFor(level: Level, draws: seq<real>): (history: seq<HistoryEntry>)
    ensures |history| == |draws|
    ensures forall i :: 0 <= i < |history| ==> history[i].trafficCondition in LevelNames
    ensures forall i :: 0 <= i < |history| ==> history[i] == HistoryEntry(LevelName(Bucket(level, draws[i])))
  {
    if draws == [] then []
    else HistoryFor(level, draws[..|draws| - 1]) + [HistoryEntry(LevelName(Bucket(level, draws[|draws| - 1])))]
  }

  /** Number of history entries the handler generates. */
  const HistoryLength := 20

  /** The `for _ in range(20)` loop; `draws` are the values `np.random.random()` returns. */
  method BuildHistory(level: Level, draws: seq<real>) returns (history: seq<HistoryEntry>)
    requires |draws| == HistoryLength
    ensures |history| == HistoryLength
    ensures forall i :: 0 <= i < |history| ==> history[i].trafficCondition in LevelNames
    ensures history == HistoryFor(level, draws)
  {
    history := [];
    var i := 0;
    while i < HistoryLength
      invariant 0 <= i <= HistoryLength
      invariant history == HistoryFor(level, draws[..i])
    {
      var selected;
      var w := Weights(level);
      if draws[i] < w.0 {
        selected := "Low";
      } else if draws[i] < w.0 + w.1 {
        selected := "Moderate";
      } else {
        selected := "High";
      }
      assert draws[..i + 1][..i] == draws[..i];
      history := history + [HistoryEntry(selected)];
      i := i + 1;
    }
    assert draws[..HistoryLength] == draws;
  }

  /** An exception raised inside the handler's `try` block. */
  datatype Raised =
    | InvalidWeather            // the `HTTPException(400, "Invalid weather condition")`
    | ParseError(text: string)  // what `datetime.fromisoformat` raises, as text

  const InvalidWeatherMessage := "Invalid weather condition"

  /**
   * `str(e)` of a raised exception. An `HTTPException` turns into its
   * status code, a colon and its detail.
   */
  function ExceptionText(e: Raised): string
  {
    match e
    case InvalidWeather => "400: Invalid weather condition"
    case ParseError(text) => text
  }

  /** The blanket `except Exception` clause as written: every exception becomes a 500. */
  function BlanketExcept(e: Raised): (error: HttpError)
    ensures error.status == 500
    ensures error.detail == ExceptionText(e)
  {
    HttpError(500, ExceptionText(e))
  }

  /**
   * The handling the code evidently intends: the `HTTPException` the handler
   * raises itself reaches the client with its own status and detail; only
   * unexpected exceptions become a 500.
   */
  function IntendedExcept(e: Raised): (error: HttpError)
    ensures e.InvalidWeather? ==> error == HttpError(400, InvalidWeatherMessage)
    ensures e.ParseError? ==> error == HttpError(500, e.text)
  {
    match e
    case InvalidWeather => HttpError(400, InvalidWeatherMessage)
    case ParseError(text) => HttpError(500, text)
  }

  /** The blanket clause turns the handler's own 400 into a 500 whose detail carries the "400: " prefix. */
  lemma BlanketExceptMasksBadRequest()
    ensures BlanketExcept(InvalidWeather) == HttpError(500, "400: Invalid weather condition")
    ensures IntendedExcept(InvalidWeather) == HttpError(400, "Invalid weather condition")
    ensures BlanketExcept(InvalidWeather) != IntendedExcept(InvalidWeather)
  {
  }

  /** The two clauses treat every exception other than the handler's own 400 alike. */
  lemma ExceptClausesAgreeOnParseErrors(text: string)
    ensures BlanketExcept(ParseError(text)) == IntendedExcept(ParseError(text))
  {
  }

  /**
   * The `try` block of the handler. `weatherClasses` is the fitted encoder's
   * `classes_`; `parseHour` is `datetime.fromisoformat` after the "Z" suffix
   * is rewritten, giving the hour or the text of the error it raises.
   */
  method TryBlock(
    data: PredictionRequest,
    weatherClasses: set<string>,
    parseHour: string -> Result<Hour, string>,
    draws: seq<real>)
    returns (outcome: Result<PredictionResult, Raised>)
    requires |draws| == HistoryLength
    ensures outcome.Success? <==>
      data.weatherCondition in weatherClasses && parseHour(data.dateTime).Success?
    ensures data.weatherCondition !in weatherClasses ==> outcome == Failure(InvalidWeather)
    ensures data.weatherCondition in weatherClasses && parseHour(data.dateTime).Failure? ==>
      outcome == Failure(ParseError(parseHour(data.dateTime).error))
    ensures outcome.Success? ==>
      var level := PredictedLevel(data, parseHour(data.dateTime).value);
      outcome.value.trafficCondition == LevelName(level) &&
      outcome.value.trafficRule == Rule(level) &&
      outcome.value.history == HistoryFor(level, draws)
    ensures outcome.Success? ==>
      outcome.value.trafficCondition in LevelNames &&
      |outcome.value.history| == HistoryLength &&
      forall i :: 0 <= i < HistoryLength ==> outcome.value.history[i].trafficCondition in LevelNames
  {
    if data.weatherCondition !in weatherClasses {
      return Failure(InvalidWeather);
    }
    var parsed := parseHour(data.dateTime);
    if parsed.Failure? {
      return Failure(ParseError(parsed.error));
    }
    var hour := parsed.value;
    var isRushHour := IsRushHour(hour);
    var isBadWeather := IsBadWeather(data.weatherCondition);
    var isJunction := IsJunction(data.junction);
    var traffic := Classify(isRushHour, isBadWeather, isJunction);
    var rule := Rule(traffic);
    var history := BuildHistory(traffic, draws);
    outcome := Success(PredictionResult(LevelName(traffic), rule, history));
  }

  /**
   * The `/predict` handler as written: an unknown weather is rejected before
   * any prediction, but reaches the client as a 500.
   */
  method Predict(
    data: PredictionRequest,
    weatherClasses: set<string>,
    parseHour: string -> Result<Hour, string>,
    draws: seq<real>)
    returns (response: Result<PredictionResult, HttpError>)
    requires |draws| == HistoryLength
    ensures response.Success? <==>
      data.weatherCondition in weatherClasses && parseHour(data.dateTime).Success?
    ensures data.weatherCondition !in weatherClasses ==>
      response == Failure(HttpError(500, "400: Invalid weather condition"))
    ensures data.weatherCondition in weatherClasses && parseHour(data.dateTime).Failure? ==>
      response == Failure(HttpError(500, parseHour(data.dateTime).error))
    ensures response.Success? ==>
      var level := PredictedLevel(data, parseHour(data.dateTime).value);
      response.value == PredictionResult(LevelName(level), Rule(level), HistoryFor(level, draws))
  {
    var outcome := TryBlock(data, weatherClasses, parseHour, draws);
    match outcome
    case Success(result) => response := Success(result);
    case Failure(e) => response := Failure(BlanketExcept(e));
  }

  /** The handler with the intended exception handling: an unknown weather is a 400. */
  method PredictIntended(
    data: PredictionRequest,
    weatherClasses: set<string>,
    parseHour: string -> Result<Hour, string>,
    draws: seq<real>)
    returns (response: Result<PredictionResult, HttpError>)
    requires |draws| == HistoryLength
    ensures response.Success? <==>
      data.weatherCondition in weatherClasses && parseHour(data.dateTime).Success?
    ensures data.weatherCondition !in weatherClasses ==>
      response == Failure(HttpError(400, InvalidWeatherMessage))
    ensures data.weatherCondition in weatherClasses && parseHour(data.dateTime).Failure? ==>
      response == Failure(HttpError(500, parseHour(data.dateTime).error))
    ensures response.Success? ==>
      var level := PredictedLevel(data, parseHour(data.dateTime).value);
      response.value == PredictionResult(LevelName(level), Rule(level), HistoryFor(level, draws))
  {
    var outcome := TryBlock(data, weatherClasses, parseHour, draws);
    match outcome
    case Success(result) => response := Success(result);
    case Failure(e) => response := Failure(IntendedExcept(e));
  }
}
