/**
 * ResultsSection: the style class for the predicted condition, the icon for
 * the chosen weather, the per-level counts of the history and the chart
 * built from them.
 */
module Results {
  import opened Ascii
  import opened Api

  /** The style class of the condition badge, matched case-insensitively. */
  function TrafficClass(condition: string): (cls: string)
    ensures cls in {"traffic-low", "traffic-moderate", "traffic-high", ""}
    ensures cls == "traffic-low" <==> ToLower(condition) == "low"
    ensures cls == "traffic-moderate" <==> ToLower(condition) == "moderate"
    ensures cls == "traffic-high" <==> ToLower(condition) == "high"
  {
    var key := ToLower(condition);
    if key == "low" then "traffic-low"
    else if key == "moderate" then "traffic-moderate"
    else if key == "high" then "traffic-high"
    else ""
  }

  /**
   * Every spelling of low, moderate and high in any mixture of ASCII cases
   * gets that level's class, and no other string gets one.
   */
  lemma TrafficClassAcceptsAnyCase(condition: string)
    ensures TrafficClass(condition) == "traffic-low" <==> CaseVariant(condition, "low")
    ensures TrafficClass(condition) == "traffic-moderate" <==> CaseVariant(condition, "moderate")
    ensures TrafficClass(condition) == "traffic-high" <==> CaseVariant(condition, "high")
    ensures TrafficClass(condition) == "" <==>
      !CaseVariant(condition, "low") && !CaseVariant(condition, "moderate") && !CaseVariant(condition, "high")
  {
    ToLowerMatchesCaseVariants(condition, "low");
    ToLowerMatchesCaseVariants(condition, "moderate");
    ToLowerMatchesCaseVariants(condition, "high");
  }

  /** Rewriting the condition in capitals does not change its class. */
  lemma TrafficClassIgnoresUpperCase(condition: string)
    ensures TrafficClass(ToUpper(condition)) == TrafficClass(condition)
  {
    ToLowerOfToUpper(condition);
  }

  const RainIcon := "\U{1F327}\U{FE0F}"
  const SnowIcon := "\U{2744}\U{FE0F}"
  const FogIcon := "\U{1F32B}\U{FE0F}"
  const CloudyIcon := "\U{2601}\U{FE0F}"
  const SunIcon := "\U{2600}\U{FE0F}"

  /** The icon next to the weather name; "clear" and every unknown value get the sun. */
  function WeatherIcon(weather: string): (icon: string)
    ensures icon in {RainIcon, SnowIcon, FogIcon, CloudyIcon, SunIcon}
    ensures icon == RainIcon <==> ToLower(weather) == "rain"
    ensures icon == SnowIcon <==> ToLower(weather) == "snow"
    ensures icon == FogIcon <==> ToLower(weather) == "fog"
    ensures icon == CloudyIcon <==> ToLower(weather) == "cloudy"
  {
    var key := ToLower(weather);
    if key == "rain" then RainIcon
    else if key == "snow" then SnowIcon
    else if key == "fog" then FogIcon
    else if key == "cloudy" then CloudyIcon
    else SunIcon
  }

  /** The icon depends only on which of the four words the weather spells, in any case. */
  lemma WeatherIconAcceptsAnyCase(weather: string)
    ensures WeatherIcon(weather) == RainIcon <==> CaseVariant(weather, "rain")
    ensures WeatherIcon(weather) == SnowIcon <==> CaseVariant(weather, "snow")
    ensures WeatherIcon(weather) == FogIcon <==> CaseVariant(weather, "fog")
    ensures WeatherIcon(weather) == CloudyIcon <==> CaseVariant(weather, "cloudy")
    ensures WeatherIcon(weather) == SunIcon <==>
      !CaseVariant(weather, "rain") && !CaseVariant(weather, "snow") &&
      !CaseVariant(weather, "fog") && !CaseVariant(weather, "cloudy")
  {
    ToLowerMatchesCaseVariants(weather, "rain");
    ToLowerMatchesCaseVariants(weather, "snow");
    ToLowerMatchesCaseVariants(weather, "fog");
    ToLowerMatchesCaseVariants(weather, "cloudy");
  }

  /** The own properties of `trafficCounts`: the only keys `hasOwnProperty` accepts. */
  predicate IsCountedKey(key: string)
  {
    key == "Low" || key == "Moderate" || key == "High"
  }

  /** The `trafficCounts` object. */
  datatype TrafficCounts = TrafficCounts(low: nat, moderate: nat, high: nat)

  function Total(counts: TrafficCounts): nat
  {
    counts.low + counts.moderate + counts.high
  }

  /** Number of entries whose condition is exactly `key`. */
  function Occurrences(history: seq<HistoryEntry>, key: string): nat
  {
    if history == [] then 0
    else
      var last := |history| - 1;
      Occurrences(history[..last], key) + (if history[last].trafficCondition == key then 1 else 0)
  }

  /** The counts the loop should reach: one exact-case tally per key. */
  function Tally(history: seq<HistoryEntry>): TrafficCounts
  {
    TrafficCounts(Occurrences(history, "Low"), Occurrences(history, "Moderate"), Occurrences(history, "High"))
  }

  /** The `history.forEach` loop that increments the matching counter. */
  method CountTraffic(history: seq<HistoryEntry>) returns (counts: TrafficCounts)
    ensures counts == Tally(history)
  {
    counts := TrafficCounts(0, 0, 0);
    var i := 0;
    while i < |history|
      invariant 0 <= i <= |history|
      invariant counts == Tally(history[..i])
    {
      var key := history[i].trafficCondition;
      if IsCountedKey(key) {
        if key == "Low" {
          counts := counts.(low := counts.low + 1);
        } else if key == "Moderate" {
          counts := counts.(moderate := counts.moderate + 1);
        } else {
          counts := counts.(high := counts.high + 1);
        }
      }
      assert history[..i + 1][..i] == history[..i];
      i := i + 1;
    }
    assert history[..|history|] == history;
  }

  /** Each count is the multiplicity of its entry in the history. */
  lemma {:induction false} OccurrencesIsMultiplicity(history: seq<HistoryEntry>, key: string)
    ensures Occurrences(history, key) == multiset(history)[HistoryEntry(key)]
  {
    if history != [] {
      var n := |history| - 1;
      OccurrencesIsMultiplicity(history[..n], key);
      assert history == history[..n] + [history[n]];
      assert multiset(history) == multiset(history[..n]) + multiset{history[n]};
    }
  }

  /** Reordering the history does not change the counts. */
  lemma TallyIgnoresOrder(a: seq<HistoryEntry>, b: seq<HistoryEntry>)
    requires multiset(a) == multiset(b)
    ensures Tally(a) == Tally(b)
  {
    OccurrencesIsMultiplicity(a, "Low");
    OccurrencesIsMultiplicity(a, "Moderate");
    OccurrencesIsMultiplicity(a, "High");
    OccurrencesIsMultiplicity(b, "Low");
    OccurrencesIsMultiplicity(b, "Moderate");
    OccurrencesIsMultiplicity(b, "High");
  }

  /**
   * The counts never exceed the history's length, and reach it exactly when
   * every entry is spelled "Low", "Moderate" or "High".
   */
  lemma {:induction false} TallyBound(history: seq<HistoryEntry>)
    ensures Total(Tally(history)) <= |history|
    ensures Total(Tally(history)) == |history| <==>
      forall i :: 0 <= i < |history| ==> IsCountedKey(history[i].trafficCondition)
  {
    if history != [] {
      var n := |history| - 1;
      TallyBound(history[..n]);
      if forall i :: 0 <= i < |history| ==> IsCountedKey(history[i].trafficCondition) {
        assert forall i :: 0 <= i < n ==> history[..n][i] == history[i];
      }
      if Total(Tally(history)) == |history| {
        assert Total(Tally(history[..n])) == n;
        assert IsCountedKey(history[n].trafficCondition);
        forall i | 0 <= i < |history|
          ensures IsCountedKey(history[i].trafficCondition)
        {
          if i < n {
            assert history[..n][i] == history[i];
          }
        }
      }
    }
  }

  /** An entry in another case, such as "low", changes no count. */
  lemma UncountedEntryIgnored(history: seq<HistoryEntry>, entry: HistoryEntry)
    requires !IsCountedKey(entry.trafficCondition)
    ensures Tally(history + [entry]) == Tally(history)
  {
    assert (history + [entry])[..|history|] == history;
  }

  /** One bar of the chart. */
  datatype ChartRow = ChartRow(name: string, value: nat)

  /** `chartData`: the three bars, always in the order Low, Moderate, High. */
  function ChartData(counts: TrafficCounts): seq<ChartRow>
  {
    [ChartRow("Low", counts.low), ChartRow("Moderate", counts.moderate), ChartRow("High", counts.high)]
  }

  /**
   * The chart of a history has three bars named Low, Moderate and High, and
   * each bar's height is the number of entries spelled exactly as its name.
   */
  lemma ChartCountsHistory(history: seq<HistoryEntry>)
    ensures |ChartData(Tally(history))| == 3
    ensures ChartData(Tally(history))[0].name == "Low"
    ensures ChartData(Tally(history))[1].name == "Moderate"
    ensures ChartData(Tally(history))[2].name == "High"
    ensures forall i :: 0 <= i < 3 ==>
      ChartData(Tally(history))[i].value == Occurrences(history, ChartData(Tally(history))[i].name)
    ensures forall i :: 0 <= i < 3 ==>
      ChartData(Tally(history))[i].value == multiset(history)[HistoryEntry(ChartData(Tally(history))[i].name)]
  {
    OccurrencesIsMultiplicity(history, "Low");
    OccurrencesIsMultiplicity(history, "Moderate");
    OccurrencesIsMultiplicity(history, "High");
  }

  /** What the component derives from its two props. */
  datatype ResultsView = ResultsView(
    conditionText: string,
    trafficClass: string,
    weatherText: string,
    weatherIcon: string,
    ruleText: string,
    chart: seq<ChartRow>)

  /** The derived values of one rendering of the component. */
  method Render(result: PredictionResult, weather: string) returns (view: ResultsView)
    ensures view.conditionText == result.trafficCondition && view.ruleText == result.trafficRule
    ensures view.weatherText == weather
    ensures view.trafficClass == TrafficClass(result.trafficCondition)
    ensures view.weatherIcon == WeatherIcon(weather)
    ensures view.chart == ChartData(Tally(result.history))
    ensures |view.chart| == 3
    ensures view.chart[0].name == "Low" && view.chart[1].name == "Moderate" && view.chart[2].name == "High"
    ensures forall i :: 0 <= i < 3 ==> view.chart[i].value == Occurrences(result.history, view.chart[i].name)
  {
    var counts := CountTraffic(result.history);
    ChartCountsHistory(result.history);
    view := ResultsView(
      result.trafficCondition, TrafficClass(result.trafficCondition),
      weather, WeatherIcon(weather),
      result.trafficRule, ChartData(counts));
  }

  /** The example history Low, Low, High gives the counts 2, 0 and 1. */
  lemma ExampleHistoryCounts()
    ensures Tally([HistoryEntry("Low"), HistoryEntry("Low"), HistoryEntry("High")]) == TrafficCounts(2, 0, 1)
  {
    var one := [HistoryEntry("Low")];
    var two := one + [HistoryEntry("Low")];
    var three := two + [HistoryEntry("High")];
    assert one[..0] == [] && two[..1] == one && three[..2] == two;
    assert Tally(one) == TrafficCounts(1, 0, 0);
    assert Tally(two) == TrafficCounts(2, 0, 0);
    assert three == [HistoryEntry("Low"), HistoryEntry("Low"), HistoryEntry("High")];
  }

  /** Mixed-case "MODERATE" receives the moderate style. */
  lemma MixedCaseModerate()
    ensures TrafficClass("MODERATE") == "traffic-moderate"
  {
    assert ToLower("MODERATE") == "moderate";
  }
}
