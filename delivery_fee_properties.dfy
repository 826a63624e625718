/** Properties of the fee rules that relate several requests or fix a scenario. */
module DeliveryFeeProperties {
  import opened Wrappers
  import opened Text
  import opened Entities
  import opened DeliveryFeeCalculation

  /** A bike in wind above 20 m/s is forbidden whatever the temperature and phenomenon. */
  lemma BikeInHighWindIsForbidden(city: string, weatherData: WeatherData)
    requires city in RegionalBaseFees
    requires weatherData.windSpeed > 20.0
    ensures DeliveryFee(city, "Bike", Some(weatherData)) == Forbidden(HighWindSpeed)
  {
  }

  /**
   * Wind of exactly 20 m/s does not forbid a bike; it is charged the wind
   * surcharge instead, so without a hazardous phenomenon a fee is quoted.
   */
  lemma BikeInWindOfTwentyIsCharged(city: string, weatherData: WeatherData)
    requires city in RegionalBaseFees
    requires weatherData.windSpeed == 20.0
    requires !MentionsHazard(weatherData.weatherPhenomenon)
    ensures DeliveryFee(city, "Bike", Some(weatherData)).Fee?
    ensures DeliveryFee(city, "Bike", Some(weatherData)).amount >= RegionalBaseFees[city]["Bike"] + 0.5
  {
  }

  /** Glaze, hail or thunder, in any case and anywhere in the phenomenon, forbids bikes and scooters. */
  lemma HazardousPhenomenonForbidsBikesAndScooters(city: string, vehicleType: string, weatherData: WeatherData)
    requires city in RegionalBaseFees
    requires vehicleType == "Bike" || vehicleType == "Scooter"
    requires MentionsHazard(weatherData.weatherPhenomenon)
    ensures DeliveryFee(city, vehicleType, Some(weatherData)).Forbidden?
  {
  }

  /** A car is never forbidden and always pays exactly the base fee. */
  lemma CarPaysExactlyTheBaseFee(city: string, weatherData: WeatherData)
    requires city in RegionalBaseFees
    ensures DeliveryFee(city, "Car", Some(weatherData)) == Fee(RegionalBaseFees[city]["Car"])
  {
  }

  /** Vehicle types are matched exactly: a differently capitalised name is not a vehicle type. */
  lemma VehicleTypeIsCaseSensitive(city: string, latest: Option<WeatherData>)
    requires city in RegionalBaseFees
    ensures DeliveryFee(city, "bike", latest) == InvalidVehicleType
  {
  }

  /** A colder reading never gives a lower temperature surcharge. */
  lemma ColderIsNeverCheaper(vehicleType: string, colder: real, warmer: real)
    requires colder <= warmer
    ensures TemperatureExtraFee(vehicleType, colder) >= TemperatureExtraFee(vehicleType, warmer)
  {
  }

  /** Up to the 20 m/s limit, a windier reading never gives a lower wind surcharge. */
  lemma WindierIsNeverCheaper(vehicleType: string, calmer: real, windier: real)
    requires calmer <= windier <= 20.0
    ensures WindExtraFee(vehicleType, windier) >= WindExtraFee(vehicleType, calmer)
  {
  }

  /** Severity of a phenomenon for the surcharge: none, rain, snow or sleet. */
  function PhenomenonSeverity(phenomenon: string): nat {
    if MentionsSnowOrSleet(phenomenon) then 2 else if MentionsRain(phenomenon) then 1 else 0
  }

  /**
   * For the same city and vehicle, a colder, windier and at least as severe
   * reading is never quoted a lower fee than a milder one, when both are quoted.
   */
  lemma HarsherWeatherIsNeverCheaper(city: string, vehicleType: string, milder: WeatherData, harsher: WeatherData)
    requires harsher.airTemperature <= milder.airTemperature
    requires milder.windSpeed <= harsher.windSpeed
    requires PhenomenonSeverity(milder.weatherPhenomenon) <= PhenomenonSeverity(harsher.weatherPhenomenon)
    requires DeliveryFee(city, vehicleType, Some(milder)).Fee?
    requires DeliveryFee(city, vehicleType, Some(harsher)).Fee?
    ensures DeliveryFee(city, vehicleType, Some(harsher)).amount >= DeliveryFee(city, vehicleType, Some(milder)).amount
  {
  }

  /** A phenomenon of both categories is charged as snow or sleet, never as snow plus rain. */
  lemma SnowOrSleetTakesPrecedenceOverRain(vehicleType: string, phenomenon: string)
    requires vehicleType == "Bike" || vehicleType == "Scooter"
    requires MentionsSnowOrSleet(phenomenon) && MentionsRain(phenomenon)
    ensures PhenomenonExtraFee(vehicleType, phenomenon) == 1.0
  {
  }

  /** "Light snow shower" is in both surcharge categories: it mentions snow and a shower. */
  lemma LightSnowShowerIsInBothCategories()
    ensures MentionsSnowOrSleet("Light snow shower") && MentionsRain("Light snow shower")
  {
    MatchIgnoreCaseAt("Light snow shower", "Snow", 6);
    MatchIgnoreCaseAt("Light snow shower", "Shower", 11);
  }

  /** A phenomenon without the letters z, a and u (in any case) cannot mention glaze, hail or thunder. */
  lemma NoHazardWithoutLettersZAU(phenomenon: string)
    requires FoldsAvoid(phenomenon, 'Z') && FoldsAvoid(phenomenon, 'A') && FoldsAvoid(phenomenon, 'U')
    ensures !MentionsHazard(phenomenon)
  {
    MissingCharNoMatch(phenomenon, "Glaze", 3);
    MissingCharNoMatch(phenomenon, "Hail", 1);
    MissingCharNoMatch(phenomenon, "Thunder", 2);
  }

  /** "Light snow shower" mentions none of glaze, hail and thunder. */
  lemma LightSnowShowerIsNotHazardous()
    ensures !MentionsHazard("Light snow shower")
  {
    assert FoldsAvoid("Light snow shower", 'Z');
    assert FoldsAvoid("Light snow shower", 'A');
    assert FoldsAvoid("Light snow shower", 'U');
    NoHazardWithoutLettersZAU("Light snow shower");
  }

  /** A missing phenomenon, stored as the empty string, forbids nothing and adds no surcharge. */
  lemma EmptyPhenomenonIsHarmless(vehicleType: string)
    ensures !MentionsHazard("")
    ensures PhenomenonExtraFee(vehicleType, "") == 0.0
  {
  }

  /** Tartu, bike, -2.1 °C, 4.7 m/s, "Light snow shower": 2.5 + 0.5 + 0.0 + 1.0 = 4.0. */
  lemma TartuBikeInLightSnowShower(weatherData: WeatherData)
    requires weatherData.airTemperature == -2.1 && weatherData.windSpeed == 4.7
    requires weatherData.weatherPhenomenon == "Light snow shower"
    ensures DeliveryFee("Tartu", "Bike", Some(weatherData)) == Fee(4.0)
  {
    LightSnowShowerIsInBothCategories();
    LightSnowShowerIsNotHazardous();
    assert CheckForbiddenConditions("Bike", weatherData) == None;
    assert CalculateExtraFees("Bike", weatherData) == 1.5;
  }

  /** Tallinn, bike, wind 21 m/s: forbidden. */
  lemma TallinnBikeInWindOfTwentyOne(weatherData: WeatherData)
    requires weatherData.windSpeed == 21.0
    ensures DeliveryFee("Tallinn", "Bike", Some(weatherData)) == Forbidden(HighWindSpeed)
  {
  }

  /** Pärnu, scooter, "Thunder": forbidden. */
  lemma ParnuScooterInThunder(weatherData: WeatherData)
    requires weatherData.weatherPhenomenon == "Thunder"
    ensures DeliveryFee("Pärnu", "Scooter", Some(weatherData)) == Forbidden(HazardousPhenomenon)
  {
  }
}
