/** `codeToCondition`: Open-Meteo weather codes (the WMO code table) to display labels. */
module Weather {

  datatype Condition = Clear | PartlyCloudy | Foggy | Rainy | FreezingRain | Snowy | Thunderstorm | Cloudy

  /** The display label of each condition. */
  function Label(c: Condition): string {
    match c
    case Clear => "Clear"
    case PartlyCloudy => "Partly Cloudy"
    case Foggy => "Foggy"
    case Rainy => "Rainy"
    case FreezingRain => "Freezing Rain"
    case Snowy => "Snowy"
    case Thunderstorm => "Thunderstorm"
    case Cloudy => "Cloudy"
  }

  const PartlyCloudyCodes: set<int> := {1, 2, 3}
  const FoggyCodes: set<int> := {45, 48}
  const RainyCodes: set<int> := {51, 53, 55, 61, 63, 65, 80, 81, 82}
  const FreezingRainCodes: set<int> := {56, 57, 66, 67}
  const SnowyCodes: set<int> := {71, 73, 75, 77, 85, 86}
  const ThunderstormCodes: set<int> := {95, 96, 99}

  /** Each condition is returned for exactly its own code set, whatever the order of the tests;
      every unlisted code is Cloudy. */
  function CodeToCondition(code: int): (c: Condition)
    ensures c == Clear <==> code == 0
    ensures c == PartlyCloudy <==> code in PartlyCloudyCodes
    ensures c == Foggy <==> code in FoggyCodes
    ensures c == Rainy <==> code in RainyCodes
    ensures c == FreezingRain <==> code in FreezingRainCodes
    ensures c == Snowy <==> code in SnowyCodes
    ensures c == Thunderstorm <==> code in ThunderstormCodes
    ensures c == Cloudy <==> code != 0 && code !in PartlyCloudyCodes && code !in FoggyCodes && code !in RainyCodes
                             && code !in FreezingRainCodes && code !in SnowyCodes && code !in ThunderstormCodes
  {
    if code == 0 then Clear
    else if code in [1, 2, 3] then PartlyCloudy
    else if code in [45, 48] then Foggy
    else if code in [51, 53, 55, 61, 63, 65, 80, 81, 82] then Rainy
    else if code in [56, 57, 66, 67] then FreezingRain
    else if code in [71, 73, 75, 77, 85, 86] then Snowy
    else if code in [95, 96, 99] then Thunderstorm
    else Cloudy
  }

  /** No code is claimed by two of the tests (0 by none of the sets), so the order of the chain does not matter. */
  lemma CodeSetsDisjoint(code: int)
    ensures code in {0} ==> code !in PartlyCloudyCodes + FoggyCodes + RainyCodes + FreezingRainCodes + SnowyCodes + ThunderstormCodes
    ensures code in PartlyCloudyCodes ==> code !in FoggyCodes + RainyCodes + FreezingRainCodes + SnowyCodes + ThunderstormCodes
    ensures code in FoggyCodes ==> code !in RainyCodes + FreezingRainCodes + SnowyCodes + ThunderstormCodes
    ensures code in RainyCodes ==> code !in FreezingRainCodes + SnowyCodes + ThunderstormCodes
    ensures code in FreezingRainCodes ==> code !in SnowyCodes + ThunderstormCodes
    ensures code in SnowyCodes ==> code !in ThunderstormCodes
  {
    // Each set is exactly the codes of one condition, and a code gets a single condition.
    var c := CodeToCondition(code);
  }

  /** The eight labels are pairwise distinct, so the label alone tells the condition. */
  lemma LabelsDistinct(a: Condition, b: Condition)
    requires Label(a) == Label(b)
    ensures a == b
  {
  }
}
