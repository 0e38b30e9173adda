/**
 * The two labelling rules of data_preprocessing.py: the mapping from accident
 * severity to a traffic label, and the rush-hour indicator column.
 */
module Preprocessing {
  import opened Wrappers

  /**
   * `map_severity`; `None` is a missing severity cell, which compares unequal
   * to every number.
   */
  function MapSeverity(severity: Option<int>): (name: string)
    ensures name in {"Low", "Moderate", "High"}
    ensures name == "Moderate" <==> severity == Some(2) || severity == Some(3)
    ensures name == "High" <==> severity == Some(4)
    ensures name == "Low" <==> !(severity.Some? && 2 <= severity.value <= 4)
  {
    if severity == Some(1) then "Low"
    else if severity.Some? && severity.value in [2, 3] then "Moderate"
    else if severity == Some(4) then "High"
    else "Low"
  }

  /** Every severity outside 1 to 4, and a missing one, falls back to Low. */
  lemma MapSeverityFallback(severity: Option<int>)
    requires severity.None? || severity.value < 1 || severity.value > 4
    ensures MapSeverity(severity) == "Low"
  {
  }

  /** The `IsRushHour` column: 1 in the hours 7 to 9 and 16 to 18, 0 elsewhere. */
  function IsRushHourFlag(hour: int): (flag: int)
    ensures flag == 0 || flag == 1
    ensures flag == 1 <==> hour in {7, 8, 9, 16, 17, 18}
  {
    if 7 <= hour <= 9 || 16 <= hour <= 18 then 1 else 0
  }
}
