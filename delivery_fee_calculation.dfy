/**
 * The delivery fee rule engine: a regional base fee per city and vehicle
 * type, forbidden-usage rules for bikes and scooters, and weather
 * surcharges for air temperature, wind speed and weather phenomenon.
 *
 * Amounts and readings are exact `real`s, as the source's `decimal`s are for
 * these constants. Phenomenon matching is case-insensitive substring
 * containment against fixed word lists.
 */
module DeliveryFeeCalculation {
  import opened Wrappers
  import opened Text
  import opened Entities
  import opened WeatherDataService

  /** Regional base fee by city, then by vehicle type. */
  const RegionalBaseFees: map<string, map<string, real>> := map[
    "Tallinn" := map["Car" := 4.0, "Scooter" := 3.5, "Bike" := 3.0],
    "Tartu"   := map["Car" := 3.5, "Scooter" := 3.0, "Bike" := 2.5],
    "Pärnu"   := map["Car" := 3.0, "Scooter" := 2.5, "Bike" := 2.0]
  ]

  const SnowOrSleetPhenomena: seq<string> := [
    "Light snow shower", "Moderate snow shower", "Heavy snow shower",
    "Light sleet", "Moderate sleet", "Light snowfall", "Moderate snowfall", "Heavy snowfall",
    "Blowing snow", "Drifting snow", "Snow", "Snow shower", "Sleet", "Snowfall"
  ]

  const RainPhenomena: seq<string> := [
    "Light rain", "Moderate rain", "Heavy rain", "Light shower", "Moderate shower", "Heavy shower",
    "Rain", "Shower", "Light rain shower", "Moderate rain shower", "Heavy rain shower"
  ]

  /** Phenomena under which bikes and scooters may not be used. */
  const ForbiddenPhenomena: seq<string> := ["Glaze", "Hail", "Thunder", "Thunderstorm"]

  /** Which forbidden-usage rule applied. */
  datatype ForbiddenReason = HighWindSpeed | HazardousPhenomenon

  /** The outcome of a fee request: an amount, or one of the four ways the request fails. */
  datatype FeeQuote =
    | Fee(amount: real)
    | InvalidCity
    | InvalidVehicleType
    | NoWeatherData
    | Forbidden(reason: ForbiddenReason)

  // ---------------------------------------------------------------------------
  // The word lists, characterised by the few words they come down to
  // ---------------------------------------------------------------------------

  /** Independent description of the snow-or-sleet list: the phenomenon mentions snow or sleet. */
  predicate MentionsSnowOrSleet(phenomenon: string) {
    ContainsIgnoreCase(phenomenon, "Snow") || ContainsIgnoreCase(phenomenon, "Sleet")
  }

  /** Independent description of the rain list: the phenomenon mentions rain or a shower. */
  predicate MentionsRain(phenomenon: string) {
    ContainsIgnoreCase(phenomenon, "Rain") || ContainsIgnoreCase(phenomenon, "Shower")
  }

  /** Independent description of the forbidden list: the phenomenon mentions glaze, hail or thunder. */
  predicate MentionsHazard(phenomenon: string) {
    ContainsIgnoreCase(phenomenon, "Glaze") || ContainsIgnoreCase(phenomenon, "Hail") ||
    ContainsIgnoreCase(phenomenon, "Thunder")
  }

  lemma SnowOrSleetWordMentionsSnowOrSleet(k: int)
    requires 0 <= k < |SnowOrSleetPhenomena|
    ensures MentionsSnowOrSleet(SnowOrSleetPhenomena[k])
  {
    var p := SnowOrSleetPhenomena;
    if k == 0 { MatchIgnoreCaseAt(p[k], "Snow", 6); }
    else if k == 1 { MatchIgnoreCaseAt(p[k], "Snow", 9); }
    else if k == 2 { MatchIgnoreCaseAt(p[k], "Snow", 6); }
    else if k == 3 { MatchIgnoreCaseAt(p[k], "Sleet", 6); }
    else if k == 4 { MatchIgnoreCaseAt(p[k], "Sleet", 9); }
    else if k == 5 { MatchIgnoreCaseAt(p[k], "Snow", 6); }
    else if k == 6 { MatchIgnoreCaseAt(p[k], "Snow", 9); }
    else if k == 7 { MatchIgnoreCaseAt(p[k], "Snow", 6); }
    else if k == 8 { MatchIgnoreCaseAt(p[k], "Snow", 8); }
    else if k == 9 { MatchIgnoreCaseAt(p[k], "Snow", 9); }
    else if k == 12 { MatchIgnoreCaseAt(p[k], "Sleet", 0); }
    else { MatchIgnoreCaseAt(p[k], "Snow", 0); }
  }

  lemma RainWordMentionsRain(k: int)
    requires 0 <= k < |RainPhenomena|
    ensures MentionsRain(RainPhenomena[k])
  {
    var p := RainPhenomena;
    if k == 0 { MatchIgnoreCaseAt(p[k], "Rain", 6); }
    else if k == 1 { MatchIgnoreCaseAt(p[k], "Rain", 9); }
    else if k == 2 { MatchIgnoreCaseAt(p[k], "Rain", 6); }
    else if k == 3 { MatchIgnoreCaseAt(p[k], "Shower", 6); }
    else if k == 4 { MatchIgnoreCaseAt(p[k], "Shower", 9); }
    else if k == 5 { MatchIgnoreCaseAt(p[k], "Shower", 6); }
    else if k == 6 { MatchIgnoreCaseAt(p[k], "Rain", 0); }
    else if k == 7 { MatchIgnoreCaseAt(p[k], "Shower", 0); }
    else if k == 8 { MatchIgnoreCaseAt(p[k], "Rain", 6); }
    else if k == 9 { MatchIgnoreCaseAt(p[k], "Rain", 9); }
    else { MatchIgnoreCaseAt(p[k], "Rain", 6); }
  }

  /** Matching the snow-or-sleet list is the same as mentioning "snow" or "sleet" in any case. */
  lemma SnowOrSleetListIff(phenomenon: string)
    ensures AnyContainedIgnoreCase(phenomenon, SnowOrSleetPhenomena) <==> MentionsSnowOrSleet(phenomenon)
  {
    var list := SnowOrSleetPhenomena;
    if AnyContainedIgnoreCase(phenomenon, list) {
      var k :| 0 <= k < |list| && ContainsIgnoreCase(phenomenon, list[k]);
      SnowOrSleetWordMentionsSnowOrSleet(k);
      if ContainsIgnoreCase(list[k], "Snow") {
        ContainsIgnoreCaseTransitive(phenomenon, list[k], "Snow");
      } else {
        ContainsIgnoreCaseTransitive(phenomenon, list[k], "Sleet");
      }
    }
    if MentionsSnowOrSleet(phenomenon) {
      assert list[10] == "Snow" && list[12] == "Sleet";
    }
  }

  /** Matching the rain list is the same as mentioning "rain" or "shower" in any case. */
  lemma RainListIff(phenomenon: string)
    ensures AnyContainedIgnoreCase(phenomenon, RainPhenomena) <==> MentionsRain(phenomenon)
  {
    var list := RainPhenomena;
    if AnyContainedIgnoreCase(phenomenon, list) {
      var k :| 0 <= k < |list| && ContainsIgnoreCase(phenomenon, list[k]);
      RainWordMentionsRain(k);
      if ContainsIgnoreCase(list[k], "Rain") {
        ContainsIgnoreCaseTransitive(phenomenon, list[k], "Rain");
      } else {
        ContainsIgnoreCaseTransitive(phenomenon, list[k], "Shower");
      }
    }
    if MentionsRain(phenomenon) {
      assert list[6] == "Rain" && list[7] == "Shower";
    }
  }

  /** Matching the forbidden list is the same as mentioning glaze, hail or thunder: "Thunderstorm" adds nothing. */
  lemma ForbiddenListIff(phenomenon: string)
    ensures AnyContainedIgnoreCase(phenomenon, ForbiddenPhenomena) <==> MentionsHazard(phenomenon)
  {
    var list := ForbiddenPhenomena;
    if ContainsIgnoreCase(phenomenon, list[3]) {
      MatchIgnoreCaseAt(list[3], "Thunder", 0);
      ContainsIgnoreCaseTransitive(phenomenon, list[3], "Thunder");
    }
    assert list[0] == "Glaze" && list[1] == "Hail" && list[2] == "Thunder";
  }

  // ---------------------------------------------------------------------------
  // The rules
  // ---------------------------------------------------------------------------

  /** The forbidden-usage rules: the wind rule for bikes first, then the phenomenon rule for bikes and scooters. */
  function CheckForbiddenConditions(vehicleType: string, weatherData: WeatherData): (r: Option<ForbiddenReason>)
    ensures r == Some(HighWindSpeed) <==> vehicleType == "Bike" && weatherData.windSpeed > 20.0
    ensures r == Some(HazardousPhenomenon) <==>
              && !(vehicleType == "Bike" && weatherData.windSpeed > 20.0)
              && (vehicleType == "Bike" || vehicleType == "Scooter")
              && MentionsHazard(weatherData.weatherPhenomenon)
    ensures vehicleType != "Bike" && vehicleType != "Scooter" ==> r == None
  {
    ForbiddenListIff(weatherData.weatherPhenomenon);
    if vehicleType == "Bike" && weatherData.windSpeed > 20.0 then
      Some(HighWindSpeed)
    else if (vehicleType == "Bike" || vehicleType == "Scooter") &&
            AnyContainedIgnoreCase(weatherData.weatherPhenomenon, ForbiddenPhenomena) then
      Some(HazardousPhenomenon)
    else
      None
  }

  /** Air temperature extra fee: bikes and scooters only. */
  function TemperatureExtraFee(vehicleType: string, airTemperature: real): (fee: real)
    ensures vehicleType == "Bike" || vehicleType == "Scooter" ==>
              && (fee == 1.0 <==> airTemperature < -10.0)
              && (fee == 0.5 <==> -10.0 <= airTemperature < 0.0)
              && (fee == 0.0 <==> airTemperature >= 0.0)
    ensures vehicleType != "Bike" && vehicleType != "Scooter" ==> fee == 0.0
  {
    if vehicleType == "Bike" || vehicleType == "Scooter" then
      if airTemperature < -10.0 then 1.0
      else if airTemperature >= -10.0 && airTemperature < 0.0 then 0.5
      else 0.0
    else 0.0
  }

  /** Wind speed extra fee: bikes only, for wind from 10 to 20 m/s inclusive. */
  function WindExtraFee(vehicleType: string, windSpeed: real): (fee: real)
    ensures fee == 0.5 <==> vehicleType == "Bike" && 10.0 <= windSpeed <= 20.0
    ensures fee != 0.5 ==> fee == 0.0
  {
    if vehicleType == "Bike" && windSpeed >= 10.0 && windSpeed <= 20.0 then 0.5 else 0.0
  }

  /** Weather phenomenon extra fee: bikes and scooters only; snow or sleet takes precedence over rain. */
  function PhenomenonExtraFee(vehicleType: string, phenomenon: string): (fee: real)
    ensures vehicleType == "Bike" || vehicleType == "Scooter" ==>
              && (fee == 1.0 <==> MentionsSnowOrSleet(phenomenon))
              && (fee == 0.5 <==> !MentionsSnowOrSleet(phenomenon) && MentionsRain(phenomenon))
              && (fee == 0.0 <==> !MentionsSnowOrSleet(phenomenon) && !MentionsRain(phenomenon))
    ensures vehicleType != "Bike" && vehicleType != "Scooter" ==> fee == 0.0
  {
    SnowOrSleetListIff(phenomenon);
    RainListIff(phenomenon);
    if vehicleType == "Bike" || vehicleType == "Scooter" then
      if AnyContainedIgnoreCase(phenomenon, SnowOrSleetPhenomena) then 1.0
      else if AnyContainedIgnoreCase(phenomenon, RainPhenomena) then 0.5
      else 0.0
    else 0.0
  }

  /** The sum of the three weather surcharges. */
  function CalculateExtraFees(vehicleType: string, weatherData: WeatherData): (fee: real)
    ensures 0.0 <= fee
    ensures vehicleType == "Bike" ==> fee <= 2.5
    ensures vehicleType == "Scooter" ==> fee <= 2.0
    ensures vehicleType != "Bike" && vehicleType != "Scooter" ==> fee == 0.0
  {
    TemperatureExtraFee(vehicleType, weatherData.airTemperature)
    + WindExtraFee(vehicleType, weatherData.windSpeed)
    + PhenomenonExtraFee(vehicleType, weatherData.weatherPhenomenon)
  }

  /** Both the city and the vehicle type name an entry of the base-fee table. */
  predicate IsValidRequest(city: string, vehicleType: string) {
    city in RegionalBaseFees && vehicleType in RegionalBaseFees[city]
  }

  /** Every entry of the base-fee table is a positive amount, and each city lists exactly the three vehicle types. */
  lemma BaseFeeTableShape(city: string, vehicleType: string)
    requires city in RegionalBaseFees
    ensures RegionalBaseFees[city].Keys == {"Car", "Scooter", "Bike"}
    ensures vehicleType in RegionalBaseFees[city] ==> RegionalBaseFees[city][vehicleType] >= 2.0
  {
  }

  /**
   * The fee for a request, given the latest stored observation of the city:
   * the city is validated first, then the vehicle type, then the presence of
   * an observation, then the forbidden-usage rules; otherwise the base fee
   * plus the weather surcharges.
   */
  function DeliveryFee(city: string, vehicleType: string, latest: Option<WeatherData>): (r: FeeQuote)
    ensures r == InvalidCity <==> city !in RegionalBaseFees
    ensures r == InvalidVehicleType <==> city in RegionalBaseFees && vehicleType !in RegionalBaseFees[city]
    ensures r == NoWeatherData <==> IsValidRequest(city, vehicleType) && latest.None?
    ensures r.Forbidden? <==>
              IsValidRequest(city, vehicleType) && latest.Some? &&
              CheckForbiddenConditions(vehicleType, latest.value).Some?
    ensures r.Fee? ==> IsValidRequest(city, vehicleType) && r.amount >= RegionalBaseFees[city][vehicleType] > 0.0
    ensures r.Fee? && vehicleType == "Car" ==> r.amount == RegionalBaseFees[city][vehicleType]
    ensures r.Fee? && vehicleType == "Scooter" ==> r.amount <= RegionalBaseFees[city][vehicleType] + 2.0
    ensures r.Fee? && vehicleType == "Bike" ==> r.amount <= RegionalBaseFees[city][vehicleType] + 2.5
  {
    if city !in RegionalBaseFees then InvalidCity
    else if vehicleType !in RegionalBaseFees[city] then InvalidVehicleType
    else
      BaseFeeTableShape(city, vehicleType);
      match latest
      case None => NoWeatherData
      case Some(weatherData) =>
        match CheckForbiddenConditions(vehicleType, weatherData)
        case Some(reason) => Forbidden(reason)
        case None => Fee(RegionalBaseFees[city][vehicleType] + CalculateExtraFees(vehicleType, weatherData))
  }

  /**
   * The fee service's entry point: validates the request, reads the latest
   * observation of the city from the store, and applies the rules.
   */
  method CalculateDeliveryFee(store: WeatherDataStore, city: string, vehicleType: string) returns (r: FeeQuote)
    ensures r == DeliveryFee(city, vehicleType, store.GetLatestWeatherDataForCity(city))
  {
    if city !in RegionalBaseFees {
      return InvalidCity;
    }
    if vehicleType !in RegionalBaseFees[city] {
      return InvalidVehicleType;
    }
    var weatherData := store.GetLatestWeatherDataForCity(city);
    if weatherData.None? {
      return NoWeatherData;
    }
    var forbidden := CheckForbiddenConditions(vehicleType, weatherData.value);
    if forbidden.Some? {
      return Forbidden(forbidden.value);
    }
    var totalFee := RegionalBaseFees[city][vehicleType];
    var extraFees := CalculateExtraFees(vehicleType, weatherData.value);
    totalFee := totalFee + extraFees;
    return Fee(totalFee);
  }
}
